/**
 * The two ways the handlers cut a page out of a list of `n` resources, given the
 * 1-based `startIndex` and the `count` of a list request.
 */
module Pagination {

  function Min(a: int, b: int): int { if a <= b then a else b }
  function Max(a: int, b: int): int { if a <= b then b else a }

  /**
   * Store-backed GetAll: the bounds of `data[from:to]` and the count it writes back into
   * the request parameters.
   */
  datatype Window = Window(from: int, to: int, count: int)

  /** The slice `data[from:to]` is inside the list; otherwise the source panics. */
  predicate InBounds(w: Window, n: int)
  {
    0 <= w.from <= w.to <= n
  }

  /**
   * The arithmetic of the store-backed GetAll, as written: `from` is `startIndex - 1` for
   * a positive start index and 0 otherwise; when `from + count` reaches the end of the
   * list the count is rewritten to what is left; `to` is `from` plus the count.
   */
  function PageWindow(n: int, startIndex: int, count: int): (w: Window)
    ensures w.from == (if startIndex > 0 then startIndex - 1 else 0)
    ensures w.count == w.to - w.from
    ensures w.count == (if w.from + count >= n then n - w.from else count)
    ensures InBounds(w, n) <==> w.from <= n && 0 <= count
    ensures InBounds(w, n) ==> w.to == Min(w.from + count, n) && w.to - w.from <= count
  {
    var from := if startIndex > 0 then startIndex - 1 else 0;
    var c := if from + count >= n then n - from else count;
    Window(from, from + c, c)
  }

  /** The examples of a list of 20: items 1-10, items 15-20, and a start past the end. */
  lemma PageWindowExamples()
    ensures PageWindow(20, 1, 10) == Window(0, 10, 10)
    ensures PageWindow(20, 15, 10) == Window(14, 20, 6)
    ensures !InBounds(PageWindow(20, 25, 5), 20)
  {
  }

  /** Whether the in-memory GetAll keeps the resource at 0-based iteration position `j` (counter `j + 1`). */
  predicate KeptPosition(startIndex: int, count: int, j: int)
  {
    startIndex <= j + 1 <= startIndex + count - 1
  }

  /**
   * In-memory GetAll: the 0-based positions `[lo, hi)` of the iteration that are kept,
   * namely those whose 1-based counter `i` has `startIndex <= i <= startIndex + count - 1`.
   */
  function IterationWindow(n: nat, startIndex: int, count: int): (b: (nat, nat))
    ensures b.0 <= b.1 <= n
    ensures forall j :: 0 <= j < n ==> (b.0 <= j < b.1 <==> KeptPosition(startIndex, count, j))
  {
    var lo := Min(Max(startIndex - 1, 0), n);
    var hi := Max(lo, Min(startIndex + count - 1, n));
    (lo, hi)
  }

  /** For a start index of at least 1 the in-memory page holds at most `count` resources. */
  lemma IterationWindowAtMostCount(n: nat, startIndex: int, count: int)
    requires startIndex >= 1
    ensures IterationWindow(n, startIndex, count).1 - IterationWindow(n, startIndex, count).0 <= Max(count, 0)
  {
  }

  /** With a start index of 0 or less, one resource fewer than `startIndex + count` is returned. */
  lemma IterationWindowLowStart(n: nat, startIndex: int, count: int)
    requires startIndex <= 0
    ensures IterationWindow(n, startIndex, count) == (0, Min(Max(startIndex + count - 1, 0), n))
  {
  }
}

/**
 * The PATCH operation loop shared, with one difference, by the two handlers: operations are
 * applied one after another, in request order, to an attribute map. With a path, add and
 * replace set that one key; without a path the value must be a map, which is merged in;
 * remove writes null under its path. The difference is how an add without a path treats a
 * list: the store-backed handler splices the new list's elements after the old ones, the
 * in-memory handler appends the new value as one element.
 */
module PatchEngine {
  import opened Wrappers
  import opened JsonValues
  import Normalizer

  datatype OpKind = Add | Replace | Remove

  datatype PatchOp = PatchOp(op: OpKind, path: string, value: Json)

  /** How a merge without a path combines a key's new value with its current one. */
  datatype MergeRule =
    | Overwrite   // replace: the new value replaces the old one
    | Splice      // store-backed add: a new list is appended, element by element, to the old list
    | AppendOne   // in-memory add: a new value is appended, as one element, to an old list

  /**
   * The old value read back as a list, as the store-backed add does by marshalling it and
   * unmarshalling into `[]interface{}`: a list gives its elements; an absent key, null, or
   * any other value leaves the target as the empty list.
   */
  function OldList(m: map<string, Json>, k: string): seq<Json>
  {
    if k in m && m[k].Arr? then m[k].items else []
  }

  /** The value a merge stores under `k` for the new value `v`. */
  function Combined(rule: MergeRule, m: map<string, Json>, k: string, v: Json): Json
  {
    match rule
    case Overwrite => v
    case Splice => if v.Arr? then Arr(OldList(m, k) + v.items) else v
    case AppendOne => if k in m && m[k].Arr? then Arr(m[k].items + [v]) else v
  }

  /** The map after `for k, v := range valueMap { ... }`: each key of the value map is written once. */
  function Merge(rule: MergeRule, m: map<string, Json>, valueMap: map<string, Json>): map<string, Json>
  {
    map k | k in m.Keys + valueMap.Keys :: if k in valueMap then Combined(rule, m, k, valueMap[k]) else m[k]
  }

  /**
   * One operation. `None` is the panic of the type assertion on a value without a path that
   * is not a map. `addRule` is how the handler's add merges lists.
   */
  function ApplyOp(addRule: MergeRule, m: map<string, Json>, op: PatchOp): Option<map<string, Json>>
  {
    match op.op
    case Add =>
      if op.path != "" then Some(m[op.path := op.value])
      else if op.value.Obj? then Some(Merge(addRule, m, op.value.fields))
      else None
    case Replace =>
      if op.path != "" then Some(m[op.path := op.value])
      else if op.value.Obj? then Some(Merge(Overwrite, m, op.value.fields))
      else None
    case Remove =>
      Some(m[op.path := Null])
  }

  /** The attribute map reached, and whether the loop panicked on the way (and stopped there). */
  datatype Applied = Applied(attrs: map<string, Json>, panicked: bool)

  /** The loop over `req.Operations`, each operation seeing the effects of those before it. */
  function ApplyOps(addRule: MergeRule, m: map<string, Json>, ops: seq<PatchOp>): Applied
    decreases |ops|
  {
    if ops == [] then Applied(m, false)
    else
      var before := ApplyOps(addRule, m, ops[..|ops| - 1]);
      if before.panicked then before
      else
        match ApplyOp(addRule, before.attrs, ops[|ops| - 1])
        case Some(after) => Applied(after, false)
        case None => Applied(before.attrs, true)
  }

  /** Whether `op` may write key `k`. */
  predicate Touches(op: PatchOp, k: string)
  {
    op.path == k || (op.path == "" && op.op != Remove && op.value.Obj? && k in op.value.fields)
  }

  // ---------------------------------------------------------------------------
  // The loops as the source runs them
  // ---------------------------------------------------------------------------

  /** The inner `for k, v := range valueMap` loop of an operation without a path. */
  method MergeInto(rule: MergeRule, user: map<string, Json>, valueMap: map<string, Json>) returns (merged: map<string, Json>)
    ensures merged.Keys == user.Keys + valueMap.Keys
    ensures forall k :: k in valueMap ==> merged[k] == Combined(rule, user, k, valueMap[k])
    ensures forall k :: k in user && k !in valueMap ==> merged[k] == user[k]
  {
    merged := user;
    var pending := valueMap.Keys;
    while pending != {}
      invariant pending <= valueMap.Keys
      invariant merged.Keys == user.Keys + (valueMap.Keys - pending)
      invariant forall k :: k in valueMap && k !in pending ==> merged[k] == Combined(rule, user, k, valueMap[k])
      invariant forall k :: k in user && (k !in valueMap || k in pending) ==> merged[k] == user[k]
      decreases pending
    {
      var k :| k in pending;
      pending := pending - {k};
      var v := valueMap[k];
      match rule {
        case Overwrite =>
          merged := merged[k := v];
        case Splice =>
          if v.Arr? {
            var oldArr := if k in merged && merged[k].Arr? then merged[k].items else [];
            merged := merged[k := Arr(oldArr + v.items)];
          } else {
            merged := merged[k := v];
          }
        case AppendOne =>
          if k in merged && merged[k].Arr? {
            merged := merged[k := Arr(merged[k].items + [v])];
          } else {
            merged := merged[k := v];
          }
      }
    }
  }

  /** The operation loop: apply `ops` in order, stopping at the first panic. */
  method ApplyOperations(addRule: MergeRule, user: map<string, Json>, ops: seq<PatchOp>) returns (run: Applied)
    ensures run == ApplyOps(addRule, user, ops)
  {
    var current := user;
    var i := 0;
    while i < |ops|
      invariant 0 <= i <= |ops|
      invariant ApplyOps(addRule, user, ops[..i]) == Applied(current, false)
    {
      var op := ops[i];
      assert ops[..i + 1][..i] == ops[..i];
      match op.op {
        case Add =>
          if op.path != "" {
            current := current[op.path := op.value];
          } else if op.value.Obj? {
            current := MergeInto(addRule, current, op.value.fields);
          } else {
            PanicIsFinal(addRule, user, ops, i + 1);
            return Applied(current, true);
          }
        case Replace =>
          if op.path != "" {
            current := current[op.path := op.value];
          } else if op.value.Obj? {
            current := MergeInto(Overwrite, current, op.value.fields);
          } else {
            PanicIsFinal(addRule, user, ops, i + 1);
            return Applied(current, true);
          }
        case Remove =>
          current := current[op.path := Null];
      }
      i := i + 1;
    }
    assert ops[..i] == ops;
    run := Applied(current, false);
  }

  // ---------------------------------------------------------------------------
  // Properties
  // ---------------------------------------------------------------------------

  /** After a panic nothing more happens: the whole request ends where the prefix panicked. */
  lemma {:induction false} PanicIsFinal(addRule: MergeRule, m: map<string, Json>, ops: seq<PatchOp>, j: nat)
    requires j <= |ops|
    requires ApplyOps(addRule, m, ops[..j]).panicked
    ensures ApplyOps(addRule, m, ops) == ApplyOps(addRule, m, ops[..j])
    decreases |ops|
  {
    if j < |ops| {
      var init := ops[..|ops| - 1];
      assert init[..j] == ops[..j];
      PanicIsFinal(addRule, m, init, j);
    } else {
      assert ops[..j] == ops;
    }
  }

  /** Continue a run with more operations. */
  function Then(addRule: MergeRule, run: Applied, ops: seq<PatchOp>): Applied
  {
    if run.panicked then run else ApplyOps(addRule, run.attrs, ops)
  }

  /** Operations are applied in request order: running `a + b` is running `a`, then `b`. */
  lemma {:induction false} RequestOrder(addRule: MergeRule, m: map<string, Json>, a: seq<PatchOp>, b: seq<PatchOp>)
    ensures ApplyOps(addRule, m, a + b) == Then(addRule, ApplyOps(addRule, m, a), b)
    decreases |b|
  {
    if b == [] {
      assert a + b == a;
    } else {
      var b' := b[..|b| - 1];
      assert (a + b)[..|a + b| - 1] == a + b';
      assert (a + b)[|a + b| - 1] == b[|b| - 1];
      RequestOrder(addRule, m, a, b');
      if !ApplyOps(addRule, m, a).panicked {
        assert b[..|b| - 1] == b';
      }
    }
  }

  /** The first operation is applied first and the rest see its effect. */
  lemma FirstOpFirst(addRule: MergeRule, m: map<string, Json>, op: PatchOp, rest: seq<PatchOp>)
    ensures ApplyOps(addRule, m, [op] + rest) ==
      match ApplyOp(addRule, m, op)
      case None => Applied(m, true)
      case Some(m') => ApplyOps(addRule, m', rest)
  {
    RequestOrder(addRule, m, [op], rest);
    assert [op][..0] == [];
  }

  /** A key that no operation touches keeps its value (or stays absent), panic or not. */
  lemma {:induction false} UntouchedKeyKept(addRule: MergeRule, m: map<string, Json>, ops: seq<PatchOp>, k: string)
    requires forall i :: 0 <= i < |ops| ==> !Touches(ops[i], k)
    ensures k in ApplyOps(addRule, m, ops).attrs <==> k in m
    ensures k in m ==> ApplyOps(addRule, m, ops).attrs[k] == m[k]
    decreases |ops|
  {
    if ops != [] {
      UntouchedKeyKept(addRule, m, ops[..|ops| - 1], k);
    }
  }

  /**
   * Add or replace with a path sets that key to the value, overwriting what was there;
   * remove writes null under its path.
   */
  lemma PathSetsKey(addRule: MergeRule, m: map<string, Json>, op: PatchOp)
    requires op.path != "" || op.op == Remove
    ensures ApplyOp(addRule, m, op).Some?
    ensures op.op != Remove ==> ApplyOp(addRule, m, op).value == m[op.path := op.value]
    ensures op.op == Remove ==> ApplyOp(addRule, m, op).value == m[op.path := Null]
  {
  }

  /**
   * A key removed by a successful request, and not written again later, is absent from
   * the attributes once the document is cleaned.
   */
  lemma RemovedKeyIsPruned(addRule: MergeRule, m: map<string, Json>, before: seq<PatchOp>, path: string, after: seq<PatchOp>)
    requires forall i :: 0 <= i < |after| ==> !Touches(after[i], path)
    requires !ApplyOps(addRule, m, before + [PatchOp(Remove, path, Null)] + after).panicked
    ensures path !in Normalizer.Clean(ApplyOps(addRule, m, before + [PatchOp(Remove, path, Null)] + after).attrs)
  {
    var remove := PatchOp(Remove, path, Null);
    RequestOrder(addRule, m, before + [remove], after);
    RequestOrder(addRule, m, before, [remove]);
    var run := ApplyOps(addRule, m, before + [remove]);
    if !ApplyOps(addRule, m, before).panicked {
      FirstOpFirst(addRule, ApplyOps(addRule, m, before).attrs, remove, []);
    }
    UntouchedKeyKept(addRule, run.attrs, after, path);
  }

  /**
   * Add without a path, store-backed: a list value extends the old list (or an empty one
   * when the old value is not a list); any other value overwrites; keys outside the value
   * map are untouched.
   */
  lemma AddWithoutPathSplices(m: map<string, Json>, valueMap: map<string, Json>, k: string)
    ensures ApplyOp(Splice, m, PatchOp(Add, "", Obj(valueMap))).Some?
    ensures var r := ApplyOp(Splice, m, PatchOp(Add, "", Obj(valueMap))).value;
      && r.Keys == m.Keys + valueMap.Keys
      && (k in valueMap && valueMap[k].Arr? && k in m && m[k].Arr? ==> r[k] == Arr(m[k].items + valueMap[k].items))
      && (k in valueMap && valueMap[k].Arr? && !(k in m && m[k].Arr?) ==> r[k] == valueMap[k])
      && (k in valueMap && !valueMap[k].Arr? ==> r[k] == valueMap[k])
      && (k in m && k !in valueMap ==> r[k] == m[k])
  {
    if k in valueMap && valueMap[k].Arr? && !(k in m && m[k].Arr?) {
      assert [] + valueMap[k].items == valueMap[k].items;
    }
  }

  /**
   * Add without a path, in memory: when the old value is a list the new value becomes one
   * more element of it (a list is not spliced); otherwise the new value overwrites.
   */
  lemma AddWithoutPathAppendsOne(m: map<string, Json>, valueMap: map<string, Json>, k: string)
    ensures ApplyOp(AppendOne, m, PatchOp(Add, "", Obj(valueMap))).Some?
    ensures var r := ApplyOp(AppendOne, m, PatchOp(Add, "", Obj(valueMap))).value;
      && r.Keys == m.Keys + valueMap.Keys
      && (k in valueMap && k in m && m[k].Arr? ==> r[k] == Arr(m[k].items + [valueMap[k]]))
      && (k in valueMap && !(k in m && m[k].Arr?) ==> r[k] == valueMap[k])
      && (k in m && k !in valueMap ==> r[k] == m[k])
  {
  }

  /** Replace without a path overwrites every key of the value map and nothing else. */
  lemma ReplaceWithoutPathOverwrites(addRule: MergeRule, m: map<string, Json>, valueMap: map<string, Json>)
    ensures ApplyOp(addRule, m, PatchOp(Replace, "", Obj(valueMap))) == Some(m + valueMap)
  {
    assert Merge(Overwrite, m, valueMap) == m + valueMap;
  }

  /** Without a path, a value that is not a map makes the request panic, leaving the map as it was. */
  lemma NonMapValuePanics(addRule: MergeRule, m: map<string, Json>, op: PatchOp)
    requires op.op != Remove && op.path == "" && !op.value.Obj?
    ensures ApplyOps(addRule, m, [op]) == Applied(m, true)
  {
    FirstOpFirst(addRule, m, op, []);
  }

  /**
   * The same request on both handlers: adding `{"emails": ["a"]}` without a path to
   * `emails = ["b"]` splices in the store-backed handler, nests in the in-memory one, and
   * replace overwrites in both.
   */
  lemma MergeRulesDiffer()
    ensures var m := map["emails" := Arr([Str("b")])];
      var add := PatchOp(Add, "", Obj(map["emails" := Arr([Str("a")])]));
      var replace := PatchOp(Replace, "", Obj(map["emails" := Arr([Str("a")])]));
      && ApplyOp(Splice, m, add) == Some(map["emails" := Arr([Str("b"), Str("a")])])
      && ApplyOp(AppendOne, m, add) == Some(map["emails" := Arr([Str("b"), Arr([Str("a")])])])
      && ApplyOp(Splice, m, replace) == Some(map["emails" := Arr([Str("a")])])
  {
    var m := map["emails" := Arr([Str("b")])];
    var v := map["emails" := Arr([Str("a")])];
    assert m.Keys + v.Keys == {"emails"};
    assert [Str("b")] + [Str("a")] == [Str("b"), Str("a")];
    assert [Str("b")] + [Arr([Str("a")])] == [Str("b"), Arr([Str("a")])];
    assert Merge(Splice, m, v)["emails"] == Arr([Str("b"), Str("a")]);
    assert Merge(Splice, m, v) == map["emails" := Arr([Str("b"), Str("a")])];
    assert Merge(AppendOne, m, v)["emails"] == Arr([Str("b"), Arr([Str("a")])]);
    assert Merge(AppendOne, m, v) == map["emails" := Arr([Str("b"), Arr([Str("a")])])];
    assert Merge(Overwrite, m, v) == v;
  }
}

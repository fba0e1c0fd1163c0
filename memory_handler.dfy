/**
 * The in-memory `ResourceHandler`: a table from id to stored data that Create, Replace,
 * Delete and Patch update in place. The attribute maps are Go maps, shared by reference:
 * the map given to Create is the one stored and the one returned, and Patch writes into
 * it, so every holder of that map sees the change. Here such a map is an `AttrMap` object.
 *
 * The random draw of Create (`rand.Intn(9999)`), the clock (`now`) and the order in
 * which Go happens to range over the table are parameters.
 */
module MemoryHandler {
  import opened Wrappers
  import opened JsonValues
  import opened ScimTypes
  import opened PatchEngine
  import opened Pagination
  import opened Sequences

  /** A `map[string]interface{}` value shared by reference. */
  class AttrMap {
    var entries: map<string, Json>

    constructor (entries: map<string, Json>)
      ensures this.entries == entries
    {
      this.entries := entries;
    }
  }

  /** `Data`: the stored attribute map and the stored metadata strings. */
  datatype Data = Data(attributes: AttrMap, meta: map<string, string>)

  /**
   * The metadata this handler returns. A timestamp is `None` for a nil pointer (the empty
   * `scim.Meta{}`) and `Some` of RFC 3339 text for a pointer to a time, where the empty text
   * stands for the zero time.
   */
  datatype MemMeta = MemMeta(created: Option<Timestamp>, lastModified: Option<Timestamp>, version: string)

  /** `scim.Meta{}`: no timestamps at all, and no version. */
  const ZeroMemMeta := MemMeta(None, None, "")

  /** A returned resource; `attributes` is null where the source returns a nil map. */
  datatype MemResource = MemResource(id: string, attributes: AttrMap?, meta: MemMeta)

  datatype MemPage = MemPage(totalResults: int, resources: seq<MemResource>)

  // ---------------------------------------------------------------------------
  // Ids: fmt.Sprintf("%04d", rand.Intn(9999))
  // ---------------------------------------------------------------------------

  predicate IsDigit(c: char) { '0' <= c <= '9' }

  function DigitChar(d: int): (c: char)
    requires 0 <= d < 10
    ensures IsDigit(c) && c as int - '0' as int == d
  {
    (d + '0' as int) as char
  }

  /** The number a string of decimal digits denotes. */
  function DecimalValue(s: string): int
    requires forall i :: 0 <= i < |s| ==> IsDigit(s[i])
    decreases |s|
  {
    if s == [] then 0 else 10 * DecimalValue(s[..|s| - 1]) + (s[|s| - 1] as int - '0' as int)
  }

  /** `%04d`: four decimal digits, zero-padded, that denote `n`. */
  function Pad4(n: nat): (s: string)
    requires n < 10000
    ensures |s| == 4 && forall i :: 0 <= i < 4 ==> IsDigit(s[i])
    ensures DecimalValue(s) == n
  {
    var s := [DigitChar(n / 1000), DigitChar(n / 100 % 10), DigitChar(n / 10 % 10), DigitChar(n % 10)];
    assert DecimalValue(s[..1]) == n / 1000 by {
      assert s[..1][..0] == [];
    }
    assert DecimalValue(s[..2]) == n / 100 by {
      assert s[..2][..1] == s[..1];
      assert n / 100 == 10 * (n / 1000) + n / 100 % 10;
    }
    assert DecimalValue(s[..3]) == n / 10 by {
      assert s[..3][..2] == s[..2];
      assert n / 10 == 10 * (n / 100) + n / 10 % 10;
    }
    assert s[..4][..3] == s[..3] && s[..4] == s;
    assert n == 10 * (n / 10) + n % 10;
    s
  }

  /** Different draws give different ids. */
  lemma Pad4Injective(a: nat, b: nat)
    requires a < 10000 && b < 10000
    requires Pad4(a) == Pad4(b)
    ensures a == b
  {
  }

  // ---------------------------------------------------------------------------
  // Patch on an id the table does not hold
  // ---------------------------------------------------------------------------

  /**
   * What one operation does to the nil map of an absent id: a value without a path that
   * is not a map fails the type assertion; any write into the nil map panics; only a merge
   * of an empty map writes nothing.
   */
  function OpOnNilMap(op: PatchOp): (p: Option<PanicCause>)
    ensures p.None? <==> op.op != Remove && op.path == "" && op.value == Obj(map[])
  {
    if op.op != Remove && op.path == "" then
      if !op.value.Obj? then Some(TypeAssertion)
      else if |op.value.fields| > 0 then Some(NilMapWrite)
      else None
    else Some(NilMapWrite)
  }

  /** The panic, if any, of running `ops` against a nil map: that of the first operation that panics. */
  function NilMapPanic(ops: seq<PatchOp>): (p: Option<PanicCause>)
    ensures p.None? <==> forall i :: 0 <= i < |ops| ==> OpOnNilMap(ops[i]).None?
    ensures p.Some? ==>
      exists i :: 0 <= i < |ops| && OpOnNilMap(ops[i]) == p && (forall j :: 0 <= j < i ==> OpOnNilMap(ops[j]).None?)
  {
    if ops == [] then None
    else if OpOnNilMap(ops[0]).Some? then OpOnNilMap(ops[0])
    else
      var rest := NilMapPanic(ops[1..]);
      assert forall i :: 1 <= i < |ops| ==> ops[i] == ops[1..][i - 1];
      if rest.Some? then
        var i :| 0 <= i < |ops| - 1 && OpOnNilMap(ops[1..][i]) == rest && (forall j :: 0 <= j < i ==> OpOnNilMap(ops[1..][j]).None?);
        assert OpOnNilMap(ops[i + 1]) == rest;
        rest
      else rest
  }

  /** `fmt.Sprintf("%v", meta[key])`: the stored text, or the empty string when absent. */
  function MetaText(meta: map<string, string>, key: string): string
  {
    if key in meta then meta[key] else ""
  }

  class ResourceHandler {
    var data: map<string, Data>

    constructor (data: map<string, Data>)
      ensures this.data == data
    {
      this.data := data;
    }

    /**
     * Store the given attribute map under a four-digit id with no metadata, silently
     * replacing any entry with that id; the returned version is "v" followed by the id.
     */
    method Create(attributes: AttrMap, draw: nat, now: Timestamp) returns (r: MemResource)
      requires draw < 9999
      modifies this
      ensures data == old(data)[Pad4(draw) := Data(attributes, map[])]
      ensures r == MemResource(Pad4(draw), attributes, MemMeta(Some(now), Some(now), "v" + Pad4(draw)))
      ensures |r.id| == 4 && r.meta.created == r.meta.lastModified
    {
      var id := Pad4(draw);
      data := data[id := Data(attributes, map[])];
      r := MemResource(id, attributes, MemMeta(Some(now), Some(now), "v" + id));
    }

    /** The stored attribute map itself, and the stored metadata text. */
    method Get(id: string) returns (r: Result<MemResource, HandlerError>)
      ensures id !in data ==> r == Err(NotFound(id))
      ensures id in data ==> r == Ok(MemResource(id, data[id].attributes,
        MemMeta(Some(MetaText(data[id].meta, "created")), Some(MetaText(data[id].meta, "lastModified")), MetaText(data[id].meta, "version"))))
    {
      if id !in data {
        return Err(NotFound(id));
      }
      var d := data[id];
      r := Ok(MemResource(id, d.attributes,
        MemMeta(Some(MetaText(d.meta, "created")), Some(MetaText(d.meta, "lastModified")), MetaText(d.meta, "version"))));
    }

    /**
     * Range over the table in the order `order`, counting positions from 1, and keep the
     * entries whose position `i` has `startIndex <= i <= startIndex + count - 1`.
     */
    method GetAll(startIndex: int, count: int, order: seq<string>) returns (page: MemPage)
      requires NoDuplicates(order)
      requires forall k :: k in order <==> k in data
      ensures page.totalResults == |data|
      ensures var b := IterationWindow(|order|, startIndex, count);
        && |page.resources| == b.1 - b.0
        && forall j :: 0 <= j < b.1 - b.0 ==>
             page.resources[j] == MemResource(order[b.0 + j], data[order[b.0 + j]].attributes, ZeroMemMeta)
    {
      var resources: seq<MemResource> := [];
      ghost var b := IterationWindow(|order|, startIndex, count);
      var i := 1;
      while i <= |order|
        invariant 1 <= i <= |order| + 1
        invariant |resources| == Min(b.1, i - 1) - Min(b.0, i - 1)
        invariant forall j :: 0 <= j < |resources| ==>
          resources[j] == MemResource(order[b.0 + j], data[order[b.0 + j]].attributes, ZeroMemMeta)
      {
        var k := order[i - 1];
        if i > startIndex + count - 1 {
          assert !KeptPosition(startIndex, count, i - 1);
          break;
        }
        if i >= startIndex {
          assert KeptPosition(startIndex, count, i - 1);
          resources := resources + [MemResource(k, data[k].attributes, ZeroMemMeta)];
        } else {
          assert !KeptPosition(startIndex, count, i - 1);
        }
        i := i + 1;
      }
      page := MemPage(|data|, resources);
    }

    /** Replace the attributes of an existing entry wholesale and drop its metadata. */
    method Replace(id: string, attributes: AttrMap) returns (r: Result<MemResource, HandlerError>)
      modifies this
      ensures id !in old(data) ==> r == Err(NotFound(id)) && data == old(data)
      ensures id in old(data) ==>
        && r == Ok(MemResource(id, attributes, ZeroMemMeta))
        && data == old(data)[id := Data(attributes, map[])]
    {
      if id !in data {
        return Err(NotFound(id));
      }
      data := data[id := Data(attributes, map[])];
      r := Ok(MemResource(id, attributes, ZeroMemMeta));
    }

    /** Remove exactly the entry with that id. */
    method Delete(id: string) returns (r: Option<HandlerError>)
      modifies this
      ensures id !in old(data) ==> r == Some(NotFound(id)) && data == old(data)
      ensures id in old(data) ==> r == None && data == old(data) - {id}
    {
      if id !in data {
        return Some(NotFound(id));
      }
      data := data - {id};
      r := None;
    }

    /**
     * Apply the operations, in order, to the stored attribute map itself; the table is
     * not changed, the shared map is. A panic stops the request with the earlier
     * operations already applied. The version is the stored one followed by ".patch".
     * On an absent id the operations run against a nil map.
     */
    method Patch(id: string, ops: seq<PatchOp>, now: Timestamp) returns (r: Result<MemResource, HandlerError>)
      modifies if id in data then {data[id].attributes} else {}
      ensures data == old(data)
      ensures id in data ==>
        var run := ApplyOps(AppendOne, old(data[id].attributes.entries), ops);
        && data[id].attributes.entries == run.attrs
        && r == (if run.panicked then Err(Panic(TypeAssertion))
                 else Ok(MemResource(id, data[id].attributes,
                   MemMeta(Some(MetaText(data[id].meta, "created")), Some(now), MetaText(data[id].meta, "version") + ".patch"))))
      ensures id !in data ==>
        r == (if NilMapPanic(ops).Some? then Err(Panic(NilMapPanic(ops).value))
              else Ok(MemResource(id, null, MemMeta(Some(""), Some(now), ".patch"))))
    {
      if id !in data {
        var p := NilMapPanic(ops);
        if p.Some? {
          return Err(Panic(p.value));
        }
        return Ok(MemResource(id, null, MemMeta(Some(""), Some(now), ".patch")));
      }
      var attributes := data[id].attributes;
      var run := ApplyOperations(AppendOne, attributes.entries, ops);
      attributes.entries := run.attrs;
      if run.panicked {
        return Err(Panic(TypeAssertion));
      }
      var meta := data[id].meta;
      r := Ok(MemResource(id, attributes, MemMeta(Some(MetaText(meta, "created")), Some(now), MetaText(meta, "version") + ".patch")));
    }
  }
}

/**
 * The attribute normaliser of the store-backed user handler: the recursive null pruning of
 * `cleanMap`, the reading of `id`, `externalId` and `meta` out of a document in
 * `extractUserData`, the stand-alone `externalID` helper, and the document layout the
 * handler stores.
 */
module Normalizer {
  import opened Wrappers
  import opened JsonValues
  import opened ScimTypes

  // ---------------------------------------------------------------------------
  // What "pruned" means
  // ---------------------------------------------------------------------------

  /**
   * No key of `m` maps to null, and the same holds, recursively, inside every nested map
   * and inside every map that is a direct element of a list.
   */
  ghost predicate PrunedMap(m: map<string, Json>)
    decreases Obj(m), 0
  {
    forall k :: k in m ==> m[k] != Null && PrunedEntry(m[k])
  }

  /** A map value as `cleanMap` leaves it: nested maps pruned, map elements of lists pruned. */
  ghost predicate PrunedEntry(v: Json)
    decreases v, 1
  {
    match v
    case Obj(f) => PrunedMap(f)
    case Arr(xs) => forall i :: 0 <= i < |xs| ==> PrunedElem(xs[i])
    case _ => true
  }

  /** A list element as `cleanMap` leaves it: only a map element is looked into. */
  ghost predicate PrunedElem(v: Json)
    decreases v, 1
  {
    v.Obj? ==> PrunedMap(v.fields)
  }

  /**
   * `r` is `orig` with its null-valued keys removed and nothing else lost: every other key
   * is kept, a nested map is again pruned from its original, a list keeps its length with
   * each map element pruned from its original and every other element as it was, and any
   * other value is unchanged.
   */
  ghost predicate PrunedFrom(orig: map<string, Json>, r: map<string, Json>)
    decreases Obj(orig), 0
  {
    && (forall k :: k in r <==> k in orig && orig[k] != Null)
    && (forall k :: k in r ==> EntryPrunedFrom(orig[k], r[k]))
  }

  /** `r` is what `PrunedFrom` allows under a kept key whose original value is `orig`. */
  ghost predicate EntryPrunedFrom(orig: Json, r: Json)
    decreases orig, 1
  {
    match orig
    case Obj(f) => r.Obj? && PrunedFrom(f, r.fields)
    case Arr(xs) =>
      && r.Arr? && |r.items| == |xs|
      && forall i :: 0 <= i < |xs| ==> ElemPrunedFrom(xs[i], r.items[i])
    case _ => r == orig
  }

  /** `r` is what `PrunedFrom` allows for a list element whose original is `orig`. */
  ghost predicate ElemPrunedFrom(orig: Json, r: Json)
    decreases orig, 1
  {
    if orig.Obj? then r.Obj? && PrunedFrom(orig.fields, r.fields) else r == orig
  }

  // ---------------------------------------------------------------------------
  // cleanMap, as a specification
  // ---------------------------------------------------------------------------

  /** `cleanMap`: drop the null-valued keys and clean what remains. */
  function Clean(m: map<string, Json>): (r: map<string, Json>)
    ensures forall k :: k in r <==> k in m && m[k] != Null
    ensures PrunedMap(r)
    ensures PrunedFrom(m, r)
    decreases Obj(m), 0
  {
    map k | k in m && m[k] != Null :: CleanEntry(m[k])
  }

  /**
   * The value `cleanMap` stores back under a key: a map is cleaned, a list keeps its length
   * and has its map elements cleaned, anything else is left alone.
   */
  function CleanEntry(v: Json): (r: Json)
    ensures PrunedEntry(r)
    ensures EntryPrunedFrom(v, r)
    ensures v.Obj? <==> r.Obj?
    ensures v.Arr? ==> r.Arr? && |r.items| == |v.items|
    ensures v.Arr? ==> forall i :: 0 <= i < |v.items| && !v.items[i].Obj? ==> r.items[i] == v.items[i]
    ensures !v.Obj? && !v.Arr? ==> r == v
    decreases v, 1
  {
    match v
    case Obj(f) => Obj(Clean(f))
    case Arr(xs) => Arr(seq(|xs|, i requires 0 <= i < |xs| => CleanElem(xs[i])))
    case _ => v
  }

  /** A list element after cleaning: a map is cleaned (null and nested lists are kept as they are). */
  function CleanElem(v: Json): (r: Json)
    ensures PrunedElem(r)
    ensures ElemPrunedFrom(v, r)
    ensures v.Obj? <==> r.Obj?
    ensures !v.Obj? ==> r == v
    decreases v, 1
  {
    if v.Obj? then Obj(Clean(v.fields)) else v
  }

  // ---------------------------------------------------------------------------
  // cleanMap, as the source runs it
  // ---------------------------------------------------------------------------

  /**
   * The loop of `cleanMap`: visit every key once, delete it when its value is null,
   * otherwise rewrite a map value by its cleaned copy and a list value element by element.
   */
  method CleanMap(userData: map<string, Json>) returns (cleaned: map<string, Json>)
    ensures cleaned == Clean(userData)
    decreases Obj(userData), 0
  {
    cleaned := userData;
    var pending := userData.Keys;
    while pending != {}
      invariant pending <= userData.Keys
      invariant cleaned.Keys <= userData.Keys
      invariant forall k :: k in pending ==> k in cleaned && cleaned[k] == userData[k]
      invariant forall k :: k in userData && k !in pending ==> (k in cleaned <==> userData[k] != Null)
      invariant forall k :: k in cleaned && k !in pending ==> cleaned[k] == CleanEntry(userData[k])
      decreases pending
    {
      var k :| k in pending;
      var v := userData[k];
      pending := pending - {k};
      if v == Null {
        cleaned := cleaned - {k};
      } else {
        var c := CleanValue(v);
        cleaned := cleaned[k := c];
      }
    }
    assert cleaned.Keys == Clean(userData).Keys;
  }

  /**
   * The loop body of `cleanMap` for a value that is not null: a map is replaced by its
   * cleaned copy, a list is cleaned element by element, anything else is kept.
   */
  method CleanValue(v: Json) returns (c: Json)
    ensures c == CleanEntry(v)
    decreases v, 1
  {
    c := v;
    if v.Obj? {
      var attr := CleanMap(v.fields);
      c := Obj(attr);
    } else if v.Arr? {
      var attr := CleanList(v.items);
      assert attr == CleanEntry(v).items;
      c := Arr(attr);
    }
  }

  /** The inner loop of `cleanMap`: rewrite, by index, every list element that is a map. */
  method CleanList(list: seq<Json>) returns (attr: seq<Json>)
    ensures |attr| == |list|
    ensures forall i :: 0 <= i < |list| ==> attr[i] == CleanElem(list[i])
    decreases Arr(list), 0
  {
    attr := list;
    var i := 0;
    while i < |attr|
      invariant 0 <= i <= |attr| == |list|
      invariant forall j :: 0 <= j < i ==> attr[j] == CleanElem(list[j])
      invariant forall j :: i <= j < |list| ==> attr[j] == list[j]
    {
      if attr[i].Obj? {
        var element := CleanMap(attr[i].fields);
        attr := attr[i := Obj(element)];
      }
      i := i + 1;
    }
  }

  // ---------------------------------------------------------------------------
  // Properties of the pruning
  // ---------------------------------------------------------------------------

  /** Cleaning a pruned map changes nothing. */
  lemma {:induction false} CleanFixpoint(m: map<string, Json>)
    requires PrunedMap(m)
    ensures Clean(m) == m
    decreases Obj(m), 0
  {
    forall k | k in m
      ensures CleanEntry(m[k]) == m[k]
    {
      CleanEntryFixpoint(m[k]);
    }
  }

  lemma {:induction false} CleanEntryFixpoint(v: Json)
    requires PrunedEntry(v)
    ensures CleanEntry(v) == v
    decreases v, 1
  {
    match v
    case Obj(f) =>
      CleanFixpoint(f);
    case Arr(xs) =>
      forall i | 0 <= i < |xs|
        ensures CleanElem(xs[i]) == xs[i]
      {
        if xs[i].Obj? {
          CleanFixpoint(xs[i].fields);
        }
      }
      assert CleanEntry(v).items == xs;
    case _ =>
  }

  /** `cleanMap` is idempotent. */
  lemma CleanIdempotent(m: map<string, Json>)
    ensures Clean(Clean(m)) == Clean(m)
  {
    CleanFixpoint(Clean(m));
  }

  /** `PrunedFrom` admits one result only, so it specifies `cleanMap` completely. */
  lemma {:induction false} PrunedFromIsClean(m: map<string, Json>, r: map<string, Json>)
    requires PrunedFrom(m, r)
    ensures r == Clean(m)
    decreases Obj(m), 0
  {
    forall k | k in r
      ensures r[k] == CleanEntry(m[k])
    {
      EntryPrunedFromIsClean(m[k], r[k]);
    }
  }

  lemma {:induction false} EntryPrunedFromIsClean(v: Json, r: Json)
    requires EntryPrunedFrom(v, r)
    ensures r == CleanEntry(v)
    decreases v, 1
  {
    match v
    case Obj(f) =>
      PrunedFromIsClean(f, r.fields);
    case Arr(xs) =>
      forall i | 0 <= i < |xs|
        ensures r.items[i] == CleanElem(xs[i])
      {
        if xs[i].Obj? {
          PrunedFromIsClean(xs[i].fields, r.items[i].fields);
        }
      }
      assert r.items == CleanEntry(v).items;
    case _ =>
  }

  /** Non-null data at any depth survives cleaning: a nested map keeps its non-null entries. */
  lemma NestedValueKept(m: map<string, Json>, k: string, j: string)
    requires k in m && m[k].Obj? && j in m[k].fields && m[k].fields[j] != Null
    ensures k in Clean(m) && Clean(m)[k].Obj?
    ensures j in Clean(m)[k].fields && Clean(m)[k].fields[j] == CleanEntry(m[k].fields[j])
  {
    assert Clean(m)[k] == CleanEntry(m[k]) == Obj(Clean(m[k].fields));
  }

  /** A nested map all of whose keys were null is kept, as an empty map. */
  lemma EmptiedMapKept(m: map<string, Json>, k: string)
    requires k in m && m[k].Obj?
    requires forall j :: j in m[k].fields ==> m[k].fields[j] == Null
    ensures k in Clean(m) && Clean(m)[k] == Obj(map[])
  {
    assert Clean(m)[k].fields.Keys == {};
  }

  // ---------------------------------------------------------------------------
  // externalID and extractUserData
  // ---------------------------------------------------------------------------

  /** `externalID`: the `externalId` attribute when it is a string. */
  function ExternalIdOf(attributes: map<string, Json>): (e: Option<string>)
    ensures e.Some? <==> "externalId" in attributes && attributes["externalId"].Str?
    ensures e.Some? ==> attributes["externalId"] == Str(e.value)
  {
    if "externalId" in attributes && attributes["externalId"].Str? then
      Some(attributes["externalId"].s)
    else
      None
  }

  /** The `id` field when it is a string, the empty string otherwise. */
  function IdOf(userData: map<string, Json>): string
  {
    if "id" in userData && userData["id"].Str? then userData["id"].s else ""
  }

  /**
   * A value that `json.Unmarshal` accepts for a `string`: a string, or null, which leaves
   * the empty string.
   */
  predicate IsText(v: Json)
  {
    v.Str? || v.Null?
  }

  function Text(v: Json): string
    requires IsText(v)
  {
    if v.Str? then v.s else ""
  }

  /** The text under `key` of a decoded `map[string]string`, when present. */
  function TextAt(metaAttr: map<string, Json>, key: string): Option<string>
  {
    if key in metaAttr && IsText(metaAttr[key]) then Some(Text(metaAttr[key])) else None
  }

  /**
   * The `meta` entry decodes as a map of strings (BSON extended JSON followed by
   * `json.Unmarshal` into `map[string]string`) that holds `resourcetype` and `location`.
   */
  predicate WellFormedMeta(userData: map<string, Json>)
  {
    && "meta" in userData && userData["meta"].Obj?
    && (forall k :: k in userData["meta"].fields ==> IsText(userData["meta"].fields[k]))
    && "resourcetype" in userData["meta"].fields
    && "location" in userData["meta"].fields
  }

  /**
   * The metadata decisions of `extractUserData`: well-formed metadata gives the resource
   * type and location under their exact lower-case keys, and `created`, `lastmodified` and
   * `version` each when present; anything else gives the zero metadata.
   */
  function MetaOf(userData: map<string, Json>): (meta: Meta)
    ensures WellFormedMeta(userData) ==>
      var f := userData["meta"].fields;
      meta == Meta(Text(f["resourcetype"]), TextAt(f, "created"), TextAt(f, "lastmodified"),
                   if "version" in f then Text(f["version"]) else "", Text(f["location"]))
    ensures !WellFormedMeta(userData) ==> meta == ZeroMeta
  {
    if "meta" !in userData then ZeroMeta
    else
      match userData["meta"]
      case Obj(metaAttr) =>
        if !(forall k :: k in metaAttr ==> IsText(metaAttr[k])) then ZeroMeta
        else if "resourcetype" !in metaAttr then ZeroMeta
        else if "location" !in metaAttr then ZeroMeta
        else
          var resourceType := Text(metaAttr["resourcetype"]);
          var location := Text(metaAttr["location"]);
          var created := TextAt(metaAttr, "created");
          var lastModified := TextAt(metaAttr, "lastmodified");
          var version := if "version" in metaAttr then Text(metaAttr["version"]) else "";
          Meta(resourceType, created, lastModified, version, location)
      case _ => ZeroMeta
  }

  /**
   * `userDataToResource`, as a function: id and externalId are read from the document as
   * given, the attributes are the cleaned document itself, and the metadata is read from
   * the cleaned document.
   */
  function ToResource(userData: map<string, Json>): Resource
  {
    var cleaned := Clean(userData);
    Resource(IdOf(userData), ExternalIdOf(userData), cleaned, MetaOf(cleaned))
  }

  /**
   * `extractUserData` (with `userDataToResource`, which only packs its four results).
   * In the source the attributes are the input map itself, cleaned in place; a caller
   * that goes on using its map sees it cleaned, which callers here model by taking
   * `r.attributes` as their new map.
   */
  method ExtractUserData(userData: map<string, Json>) returns (r: Resource)
    ensures r.id == IdOf(userData)
    ensures r.externalId == ExternalIdOf(userData)
    ensures r.attributes == Clean(userData)
    ensures r.meta == MetaOf(r.attributes)
    ensures r == ToResource(userData)
  {
    var id := "";
    if "id" in userData {
      id := if userData["id"].Str? then userData["id"].s else "";
    }
    var externalId: Option<string> := None;
    if "externalId" in userData {
      if userData["externalId"].Str? {
        externalId := Some(userData["externalId"].s);
      }
    }
    var attributes := CleanMap(userData);
    r := Resource(id, externalId, attributes, MetaOf(attributes));
  }

  /** The returned attributes are not stripped: `id`, `externalId` and `meta` stay in them. */
  lemma SystemKeysKept(userData: map<string, Json>, k: string)
    requires k == "id" || k == "externalId" || k == "meta"
    requires k in userData && userData[k] != Null
    ensures k in ToResource(userData).attributes
  {
  }

  /**
   * Meta keys are matched exactly in lower case: a `meta` written with the mixed-case
   * names of the protocol gives the zero metadata.
   */
  lemma MetaKeysAreCaseSensitive()
    ensures MetaOf(map["meta" := Obj(map["resourceType" := Str("User"), "location" := Str("Users/1")])]) == ZeroMeta
  {
  }

  /**
   * A `meta` with a value that is neither a string nor null does not decode, even with
   * both required keys.
   */
  lemma MetaNeedsStringValues(resourceType: string, location: string, v: Json)
    requires !IsText(v)
    ensures MetaOf(map["meta" := Obj(map["resourcetype" := Str(resourceType), "location" := Str(location), "version" := v])]) == ZeroMeta
  {
  }

  /**
   * The decode on its own reads a null `meta` value as the empty string. Through
   * `ToResource` a null never reaches the decode, because cleaning has already removed it;
   * see `MetaNullPrunedFirst`.
   */
  lemma MetaNullReadsEmpty(resourceType: string, location: string)
    ensures MetaOf(map["meta" := Obj(map["resourcetype" := Str(resourceType), "location" := Str(location), "version" := Null])])
      == Meta(resourceType, None, None, "", location)
  {
  }

  /** A null-valued key cleans exactly as an absent one. */
  lemma NullEntryIsAbsent(f: map<string, Json>, k: string)
    requires k in f && f[k] == Null
    ensures Clean(f) == Clean(f - {k})
  {
    assert Clean(f).Keys == Clean(f - {k}).Keys;
  }

  /**
   * A null entry in a stored `meta` reads back exactly as if it were absent: cleaning
   * removes it before the decode sees it.
   */
  lemma MetaNullPrunedFirst(doc: map<string, Json>, k: string)
    requires "meta" in doc && doc["meta"].Obj?
    requires k in doc["meta"].fields && doc["meta"].fields[k] == Null
    ensures ToResource(doc).meta == ToResource(doc["meta" := Obj(doc["meta"].fields - {k})]).meta
  {
    var f := doc["meta"].fields;
    NullEntryIsAbsent(f, k);
    var withNull, without := Clean(doc), Clean(doc["meta" := Obj(f - {k})]);
    CleanedEntry(doc, "meta");
    CleanedEntry(doc["meta" := Obj(f - {k})], "meta");
    MetaReadsMetaEntry(withNull, without);
  }

  /** A non-null value comes out of cleaning as `CleanEntry` of it, under the same key. */
  lemma CleanedEntry(m: map<string, Json>, key: string)
    requires key in m && m[key] != Null
    ensures key in Clean(m) && Clean(m)[key] == CleanEntry(m[key])
  {
  }

  /** `MetaOf` reads the `meta` entry and nothing else. */
  lemma MetaReadsMetaEntry(a: map<string, Json>, b: map<string, Json>)
    requires "meta" in a && "meta" in b && a["meta"] == b["meta"]
    ensures MetaOf(a) == MetaOf(b)
  {
  }

  /** Extracting from an already extracted (cleaned) document gives the same resource. */
  lemma {:induction false} ExtractStable(userData: map<string, Json>)
    ensures ToResource(Clean(userData)) == ToResource(userData)
  {
    CleanIdempotent(userData);
    if "id" in userData && userData["id"] != Null {
      assert CleanEntry(userData["id"]).Str? <==> userData["id"].Str?;
    }
  }

  // ---------------------------------------------------------------------------
  // The stored document layout
  // ---------------------------------------------------------------------------

  /** The stored form of the metadata, under lower-case keys; absent timestamps are omitted. */
  function MetaDocument(meta: Meta): map<string, Json>
  {
    var base := map["resourcetype" := Str(meta.resourceType), "location" := Str(meta.location), "version" := Str(meta.version)];
    var withCreated := if meta.created.Some? then base["created" := Str(meta.created.value)] else base;
    if meta.lastModified.Some? then withCreated["lastmodified" := Str(meta.lastModified.value)] else withCreated
  }

  /**
   * The document stored for a resource (`Resource.Map`): its attributes, with `id`, the
   * external id when there is one, and the lower-cased `meta` written over them.
   */
  function ToDocument(r: Resource): (doc: map<string, Json>)
    ensures "id" in doc && doc["id"] == Str(r.id)
    ensures "meta" in doc && doc["meta"] == Obj(MetaDocument(r.meta))
    ensures r.externalId.Some? ==> "externalId" in doc && doc["externalId"] == Str(r.externalId.value)
    ensures forall k :: k in r.attributes && k != "id" && k != "meta" && !(k == "externalId" && r.externalId.Some?) ==>
      k in doc && doc[k] == r.attributes[k]
    ensures forall k :: k in doc ==> k in r.attributes || k == "id" || k == "meta" || (k == "externalId" && r.externalId.Some?)
  {
    var withExternal := if r.externalId.Some? then r.attributes["externalId" := Str(r.externalId.value)] else r.attributes;
    withExternal["id" := Str(r.id)]["meta" := Obj(MetaDocument(r.meta))]
  }

  /** Stored metadata reads back as the metadata that was stored. */
  lemma MetaRoundTrip(meta: Meta, doc: map<string, Json>)
    requires "meta" in doc && doc["meta"] == Obj(MetaDocument(meta))
    ensures MetaOf(doc) == meta
  {
    var f := MetaDocument(meta);
    assert "resourcetype" in f && "location" in f && "version" in f;
    assert meta.created.Some? <==> "created" in f;
    assert meta.lastModified.Some? <==> "lastmodified" in f;
  }

  /**
   * Storing a resource whose attributes are pruned and reading the document back gives the
   * same id, external id and metadata; its attributes are the stored document, so every
   * attribute other than `id`, `externalId` and `meta` comes back unchanged.
   */
  lemma {:induction false} DocumentRoundTrip(r: Resource)
    requires PrunedMap(r.attributes)
    requires r.externalId.None? ==> ExternalIdOf(r.attributes).None?
    ensures ToResource(ToDocument(r)).id == r.id
    ensures ToResource(ToDocument(r)).externalId == r.externalId
    ensures ToResource(ToDocument(r)).meta == r.meta
    ensures ToResource(ToDocument(r)).attributes == ToDocument(r)
  {
    var doc := ToDocument(r);
    var f := MetaDocument(r.meta);
    assert PrunedMap(f) by {
      forall k | k in f ensures f[k].Str? { }
    }
    assert PrunedEntry(Obj(f));
    assert PrunedMap(doc);
    CleanFixpoint(doc);
    MetaRoundTrip(r.meta, doc);
  }
}

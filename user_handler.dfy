/**
 * The store-backed `UserResourceHandler`: the six operations of the SCIM handler contract
 * over the document store, with the normaliser and the patch engine.
 *
 * What the source takes from its environment is a parameter here: the new UUID (`id`),
 * the clock (`now`), the object id the collection would give a document without one
 * (`oid`), and whether a store call fails (`findFails`, `listFails`, `insertFails`).
 * No operation calls the provisioning client.
 */
module UserHandler {
  import opened Wrappers
  import opened JsonValues
  import opened ScimTypes
  import opened Normalizer
  import opened PatchEngine
  import opened Pagination
  import opened DocumentStore
  import opened Sequences

  /** `UserResourceType.Name` and `UserResourceType.Endpoint`. */
  const ResourceTypeName := "User"
  const Endpoint := "/Users"

  /** The text of a UUID from `uuid.New()`: hexadecimal digits and dashes, which `url.PathEscape` keeps as they are. */
  predicate IsUuidText(id: string)
  {
    forall i :: 0 <= i < |id| ==> id[i] in "0123456789abcdef-"
  }

  /** A listed document as a page shows it: without its `_id`, normalised. */
  function Normalised(doc: Doc): Resource
  {
    ToResource(doc - {"_id"})
  }

  /** The resources of a page: each document normalised, in order. */
  function PageOf(data: seq<Doc>): (resources: seq<Resource>)
    ensures |resources| == |data|
    ensures forall i :: 0 <= i < |data| ==> resources[i] == ToResource(data[i] - {"_id"})
  {
    MapSeq(Normalised, data)
  }

  /** The resource Create builds and stores. */
  function CreatedResource(userInfo: Doc, id: string, now: Timestamp): Resource
  {
    var e := ToResource(userInfo);
    Resource(id, e.externalId, e.attributes, Meta(ResourceTypeName, Some(now), Some(now), "", Endpoint[1..] + "/" + id))
  }

  /**
   * The resource Replace builds: id kept, externalId, attributes, resource type and
   * location from the request, `created` from the stored document, `lastModified` now.
   */
  function ReplacedResource(id: string, stored: Doc, attributes: Doc, now: Timestamp): Resource
  {
    var e := ToResource(attributes);
    Resource(id, e.externalId, e.attributes,
      Meta(e.meta.resourceType, ToResource(stored).meta.created, Some(now), "", e.meta.location))
  }

  /**
   * The resource Patch builds from the patched document: id kept, everything else read
   * from the patched document, `lastModified` now, version dropped.
   */
  function PatchedResource(id: string, patched: Doc, now: Timestamp): Resource
  {
    var e := ToResource(patched);
    Resource(id, e.externalId, e.attributes,
      Meta(e.meta.resourceType, e.meta.created, Some(now), "", e.meta.location))
  }

  method Create(store: DocStore, userInfo: Doc, id: string, now: Timestamp, oid: string, insertFails: bool)
    returns (r: Result<Resource, HandlerError>)
    requires store.Valid()
    requires IsUuidText(id) && id !in store.docs
    modifies store
    ensures store.Valid()
    ensures insertFails ==> r == Err(Internal) && store.docs == old(store.docs) && store.order == old(store.order)
    ensures !insertFails ==>
      && r == Ok(CreatedResource(userInfo, id, now))
      && store.docs == old(store.docs)[id := WithObjectId(ToDocument(CreatedResource(userInfo, id, now)), oid)]
      && store.order == old(store.order) + [id]
  {
    var e := ExtractUserData(userInfo);
    var resource := Resource(id, e.externalId, e.attributes,
      Meta(ResourceTypeName, Some(now), Some(now), "", Endpoint[1..] + "/" + id));
    if insertFails {
      return Err(Internal);
    }
    store.Insert(id, ToDocument(resource), oid);
    r := Ok(resource);
  }

  method Get(store: DocStore, id: string, findFails: bool) returns (r: Result<Resource, HandlerError>)
    requires store.Valid()
    ensures findFails ==> r == Err(Internal)
    ensures !findFails && id !in store.docs ==> r == Err(NotFound(id))
    ensures !findFails && id in store.docs ==> r == Ok(ToResource(store.docs[id] - {"_id"}))
  {
    if findFails {
      return Err(Internal);
    }
    var user := store.Find(id);
    if |user| == 0 {
      return Err(NotFound(id));
    }
    user := user - {"_id"};
    var resource := ExtractUserData(user);
    r := Ok(resource);
  }

  /** The loop over the selected documents: strip `_id` from each and normalise it, in order. */
  method NormalizeAll(users: seq<Doc>) returns (resources: seq<Resource>)
    ensures resources == PageOf(users)
  {
    resources := [];
    var i := 0;
    while i < |users|
      invariant 0 <= i <= |users|
      invariant resources == PageOf(users[..i])
    {
      var user := users[i] - {"_id"};
      var resource := ExtractUserData(user);
      MapSeqExtend(Normalised, users, i);
      resources := resources + [resource];
      i := i + 1;
    }
    assert users[..i] == users;
  }

  method GetAll(store: DocStore, params: ListRequestParams, listFails: bool) returns (r: Result<Page, HandlerError>)
    requires store.Valid()
    modifies params
    ensures params.startIndex == old(params.startIndex)
    ensures listFails ==> r == Err(Internal) && params.count == old(params.count)
    ensures !listFails && store.order == [] ==> r == Ok(Page(0, [])) && params.count == old(params.count)
    ensures !listFails && store.order != [] ==>
      var n := |store.order|;
      var w := PageWindow(n, old(params.startIndex), old(params.count));
      && params.count == w.count
      && (InBounds(w, n) ==> r == Ok(Page(n, PageOf(store.Listing()[w.from..w.to]))))
      && (!InBounds(w, n) ==> r == Err(Panic(SliceBounds)))
  {
    if listFails {
      return Err(Internal);
    }
    var data := store.ListAll();
    if |data| == 0 {
      return Ok(Page(0, []));
    }
    var from := 0;
    if params.startIndex > 0 {
      from := params.startIndex - 1;
    }
    if from + params.count >= |data| {
      params.count := |data| - from;
    }
    var to := from + params.count;
    if !(0 <= from <= to <= |data|) {
      return Err(Panic(SliceBounds));
    }
    var resources := NormalizeAll(data[from..to]);
    r := Ok(Page(|data|, resources));
  }

  method Replace(store: DocStore, id: string, attributes: Doc, now: Timestamp, oid: string, findFails: bool, insertFails: bool)
    returns (r: Result<Resource, HandlerError>)
    requires store.Valid()
    modifies store
    ensures store.Valid()
    ensures findFails || id !in old(store.docs) ==>
      && r == (if findFails then Err(Internal) else Err(NotFound(id)))
      && store.docs == old(store.docs) && store.order == old(store.order)
    ensures !findFails && id in old(store.docs) ==>
      var replaced := ReplacedResource(id, old(store.docs)[id], attributes, now);
      && r == (if insertFails then Err(Internal) else Ok(replaced))
      && store.docs == (if insertFails then old(store.docs) - {id}
                        else (old(store.docs) - {id})[id := WithObjectId(ToDocument(replaced), oid)])
      && store.order == Without(old(store.order), id) + (if insertFails then [] else [id])
  {
    if findFails {
      return Err(Internal);
    }
    var user := store.Find(id);
    if |user| == 0 {
      return Err(NotFound(id));
    }
    store.Delete(id);
    var stored := ExtractUserData(user);
    var created := stored.meta.created;
    var e := ExtractUserData(attributes);
    var newUser := Resource(id, e.externalId, e.attributes,
      Meta(e.meta.resourceType, created, Some(now), "", e.meta.location));
    if insertFails {
      return Err(Internal);
    }
    store.Insert(id, ToDocument(newUser), oid);
    r := Ok(newUser);
  }

  /** Delete; the result is the error the source returns, `None` for success. */
  method Delete(store: DocStore, id: string, findFails: bool) returns (r: Option<HandlerError>)
    requires store.Valid()
    modifies store
    ensures store.Valid()
    ensures findFails || id !in old(store.docs) ==>
      && r == (if findFails then Some(Internal) else Some(NotFound(id)))
      && store.docs == old(store.docs) && store.order == old(store.order)
    ensures !findFails && id in old(store.docs) ==>
      r == None && store.docs == old(store.docs) - {id} && store.order == Without(old(store.order), id)
  {
    if findFails {
      return Some(Internal);
    }
    var user := store.Find(id);
    if |user| == 0 {
      return Some(NotFound(id));
    }
    store.Delete(id);
    r := None;
  }

  method Patch(store: DocStore, id: string, ops: seq<PatchOp>, now: Timestamp, oid: string, findFails: bool, insertFails: bool)
    returns (r: Result<Resource, HandlerError>)
    requires store.Valid()
    modifies store
    ensures store.Valid()
    ensures findFails || id !in old(store.docs) ==>
      && r == (if findFails then Err(Internal) else Err(NotFound(id)))
      && store.docs == old(store.docs) && store.order == old(store.order)
    ensures !findFails && id in old(store.docs) && ApplyOps(Splice, old(store.docs)[id], ops).panicked ==>
      && r == Err(Panic(TypeAssertion))
      && store.docs == old(store.docs) && store.order == old(store.order)
    ensures !findFails && id in old(store.docs) && !ApplyOps(Splice, old(store.docs)[id], ops).panicked ==>
      var patched := PatchedResource(id, ApplyOps(Splice, old(store.docs)[id], ops).attrs, now);
      && r == (if insertFails then Err(Internal) else Ok(patched))
      && store.docs == (if insertFails then old(store.docs) - {id}
                        else (old(store.docs) - {id})[id := WithObjectId(ToDocument(patched), oid)])
      && store.order == Without(old(store.order), id) + (if insertFails then [] else [id])
  {
    if findFails {
      return Err(Internal);
    }
    var user := store.Find(id);
    if |user| == 0 {
      return Err(NotFound(id));
    }
    var run := ApplyOperations(Splice, user, ops);
    if run.panicked {
      return Err(Panic(TypeAssertion));
    }
    user := run.attrs;
    store.Delete(id);
    // the first extraction cleans `user` in place; the second reads the cleaned map
    var first := ExtractUserData(user);
    var meta := first.meta;
    user := first.attributes;
    var second := ExtractUserData(user);
    ExtractStable(run.attrs);
    var newUser := Resource(id, second.externalId, second.attributes,
      Meta(meta.resourceType, meta.created, Some(now), "", meta.location));
    if insertFails {
      return Err(Internal);
    }
    store.Insert(id, ToDocument(newUser), oid);
    r := Ok(newUser);
  }

  // ---------------------------------------------------------------------------
  // Properties of the operations
  // ---------------------------------------------------------------------------

  /** The metadata read from a document depends on its `meta` entry alone. */
  lemma MetaDependsOnMetaOnly(a: Doc, b: Doc)
    requires "meta" in a <==> "meta" in b
    requires "meta" in a ==> a["meta"] == b["meta"]
    ensures ToResource(a).meta == ToResource(b).meta
  {
    var ca, cb := Clean(a), Clean(b);
    assert "meta" in ca <==> "meta" in cb;
    if "meta" in ca {
      assert ca["meta"] == CleanEntry(a["meta"]) == cb["meta"];
    }
  }

  /**
   * A patch that touches no `meta` key keeps the stored resource type, location and
   * `created`; its `lastModified` is the time of the patch.
   */
  lemma PatchKeepsCreated(id: string, stored: Doc, ops: seq<PatchOp>, now: Timestamp)
    requires forall i :: 0 <= i < |ops| ==> !Touches(ops[i], "meta")
    requires !ApplyOps(Splice, stored, ops).panicked
    ensures var patched := PatchedResource(id, ApplyOps(Splice, stored, ops).attrs, now);
      && patched.id == id
      && patched.meta.created == ToResource(stored).meta.created
      && patched.meta.resourceType == ToResource(stored).meta.resourceType
      && patched.meta.location == ToResource(stored).meta.location
      && patched.meta.lastModified == Some(now)
  {
    UntouchedKeyKept(Splice, stored, ops, "meta");
    MetaDependsOnMetaOnly(ApplyOps(Splice, stored, ops).attrs, stored);
  }

  /** An attribute other than `id`, `externalId` and `meta` only adds its own key to the stored document. */
  lemma ToDocumentWithout(r: Resource, key: string)
    requires key != "id" && key != "externalId" && key != "meta"
    ensures ToDocument(r.(attributes := r.attributes - {key})) == ToDocument(r) - {key}
  {
    var s := r.(attributes := r.attributes - {key});
    assert ToDocument(s).Keys == (ToDocument(r) - {key}).Keys;
  }

  /**
   * A stored resource read back (the collection adds an `_id`, Get strips it again) has
   * the same id, external id and metadata, even when the attributes held an `_id` of
   * their own.
   */
  lemma {:induction false} StoredReadsBack(r: Resource, oid: string)
    requires PrunedMap(r.attributes)
    requires r.externalId.None? ==> ExternalIdOf(r.attributes).None?
    ensures var read := ToResource(WithObjectId(ToDocument(r), oid) - {"_id"});
      read.id == r.id && read.externalId == r.externalId && read.meta == r.meta
  {
    var doc := ToDocument(r);
    var stripped := r.(attributes := r.attributes - {"_id"});
    assert WithObjectId(doc, oid) - {"_id"} == doc - {"_id"} by {
      if "_id" !in doc {
        assert doc["_id" := Str(oid)] - {"_id"} == doc;
      }
    }
    ToDocumentWithout(r, "_id");
    assert PrunedMap(stripped.attributes);
    assert ExternalIdOf(stripped.attributes) == ExternalIdOf(r.attributes);
    DocumentRoundTrip(stripped);
  }

  /**
   * A resource created and then read back has the same id, external id and metadata
   * (Get strips the `_id` the collection adds to the stored document).
   */
  lemma {:induction false} CreatedReadsBack(userInfo: Doc, id: string, now: Timestamp, oid: string)
    ensures var created := CreatedResource(userInfo, id, now);
      var read := ToResource(WithObjectId(ToDocument(created), oid) - {"_id"});
      && read.id == created.id
      && read.externalId == created.externalId
      && read.meta == created.meta
      && read.meta.created == Some(now) && read.meta.lastModified == Some(now)
  {
    var created := CreatedResource(userInfo, id, now);
    assert ExternalIdOf(created.attributes) == ExternalIdOf(userInfo) by {
      if "externalId" in userInfo && userInfo["externalId"] != Null {
        assert CleanEntry(userInfo["externalId"]).Str? <==> userInfo["externalId"].Str?;
      }
    }
    StoredReadsBack(created, oid);
  }
}

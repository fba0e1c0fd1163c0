# go-scim-server resource handlers, in Dafny

This project models the resource-lifecycle core of a SCIM user-provisioning server.

- **`UserResourceHandler`** (`user_resource_handler.go`) is the store-backed handler. It stores users as documents, reads them back, lists them a page at a time, replaces them, deletes them and patches them. The model of the store is `DocumentStore.DocStore`.
- **The attribute normaliser** is part of that handler. `cleanMap` recursively drops null-valued keys. `extractUserData` reads `id`, `externalId` and `meta` out of a document, and `externalID` is a stand-alone helper.
- **The patch engine** is the operation loop of both handlers' `Patch`. It applies add, replace and remove in request order, each one seeing the earlier ones.
- **`ResourceHandler`** (`resource.go`) is the in-memory handler. It keeps a table from four-digit ids to stored data and updates it in place. The attribute maps are Go maps shared by reference, so each one is an `AttrMap` object: Patch writes into the very map that Create was given.
- **`ProvisioningClient`** (`scim/provisioning_client.go`): how it builds request URLs, and how `Post` decides whether to accept a response.

The JSON values in documents and attributes are the `JsonValues.Json` datatype. Go's `getMap` and `getSlice` marshal a value and unmarshal it into a map or a list. The model reads them as shape tests: a map is an `Obj`, a list is an `Arr`.

Whatever the source takes from its environment is a parameter:

- the new UUID;
- the random draw of the in-memory `Create`;
- the clock;
- the object id the collection gives a document;
- whether a store call fails;
- the order in which Go ranges over a map;
- the HTTP status, response body and decoded body of a POST;
- `url.Values.Encode`.

Timestamps are RFC 3339 text.

**Panics are explicit error results.** The source panics in three places, and each becomes an `Err(Panic(cause))` result rather than a precondition. Callers can therefore hit every one of them, and the contracts say exactly when it happens:

- `TypeAssertion`: an add or replace without a path whose value is not a map (user_resource_handler.go:181, :197; resource.go:139, :153).
- `SliceBounds`: `data[from:to]` out of range in the store-backed `GetAll` (user_resource_handler.go:105).
- `NilMapWrite`: a write into the nil attribute map of an absent id in the in-memory `Patch` (resource.go:137-159).

A panic in the patch loop leaves the state the earlier operations reached. In the store-backed handler that state is local and the store is untouched. In the in-memory handler it has already been written into the shared map.

**Behaviour of the code worth knowing (the model follows the code):**

- `meta` keys are matched exactly, in lower case (`resourcetype`, `location`, `created`, `lastmodified`, `version`). They are not matched case-insensitively; see `Normalizer.MetaKeysAreCaseSensitive`.
- The normaliser does not strip `id`, `externalId`, `meta` or `_id` from the attributes; see `Normalizer.SystemKeysKept`.
- A store-backed `GetAll` whose start index is more than one past the end of the list panics on the slice; it does not return an empty page. A negative `count` that does not reach the end does the same; see `Pagination.PageWindowExamples`.
- A malformed patch value is a panic, not an `InvalidPatch` error.
- The store-backed `Patch` does not derive a new version: the returned version is empty. Only the in-memory `Patch` appends `.patch`.

## Model

| member | source | states |
|---|---|---|
| Normalizer.Clean | user_resource_handler.go:269-289 | the result is `PrunedFrom` the input: exactly the non-null keys are kept, and at every depth a nested map or a map element of a list keeps its non-null entries and loses only its null ones; the result is pruned all the way down |
| Normalizer.CleanEntry | user_resource_handler.go:275-286 | a map comes out `PrunedFrom` its original, keeping its non-null entries; a list keeps its length, its map elements come out pruned from their originals and its other elements are unchanged; any other value is unchanged |
| Normalizer.CleanElem | user_resource_handler.go:280-284 | a map element of a list comes out `PrunedFrom` the original map, keeping its non-null entries; null and nested lists inside a list are kept as they are |
| Normalizer.PrunedFromIsClean | user_resource_handler.go:269-289 | `PrunedFrom` allows one result only, `Clean`'s, so the relation specifies `cleanMap` completely |
| Normalizer.EntryPrunedFromIsClean | user_resource_handler.go:275-286 | the same, for a single value under a kept key |
| Normalizer.NestedValueKept | user_resource_handler.go:275-278 | a non-null entry of a nested map survives, cleaned, under the kept key |
| Normalizer.CleanMap | user_resource_handler.go:269-289 | the key loop, which deletes null entries and rewrites map and list values in place, computes `Clean` |
| Normalizer.CleanValue | user_resource_handler.go:275-286 | the loop body for a non-null value stores back exactly `CleanEntry` of it |
| Normalizer.CleanList | user_resource_handler.go:279-285 | the index loop over a list keeps its length and cleans exactly its map elements |
| Normalizer.CleanFixpoint | user_resource_handler.go:269-289 | a map that is already pruned is left unchanged by cleaning |
| Normalizer.CleanEntryFixpoint | user_resource_handler.go:275-286 | a value that is already pruned is left unchanged by cleaning |
| Normalizer.CleanIdempotent | user_resource_handler.go:269-289 | cleaning twice is cleaning once |
| Normalizer.EmptiedMapKept | user_resource_handler.go:275-277 | a nested map whose entries are all null becomes an empty map, which is kept under its key |
| Normalizer.ExternalIdOf | user_resource_handler.go:233-243 | an external id is present exactly when `externalId` holds a string, and it is that string |
| Normalizer.MetaOf | user_resource_handler.go:308-338 | exactly when `meta` is a map of strings (a null value reads as the empty string) holding `resourcetype` and `location`, the metadata is those two, `created` and `lastmodified` when present, and `version` when present (else empty); otherwise it is the zero metadata |
| Normalizer.ExtractUserData | user_resource_handler.go:291-341 | id is `IdOf` (the string under `id`, else empty), externalId as `ExternalIdOf`, the attributes are the cleaned document, and meta is read from the cleaned document |
| Normalizer.SystemKeysKept | user_resource_handler.go:305 | a non-null `id`, `externalId` or `meta` stays among the attributes |
| Normalizer.MetaKeysAreCaseSensitive | user_resource_handler.go:318-325 | a `meta` with mixed-case keys `resourceType` and `location` gives zero metadata |
| Normalizer.MetaNullReadsEmpty | user_resource_handler.go:313-336 | the decode on its own reads a null `version` as the empty string without spoiling the metadata (through `ToResource` cleaning removes the null first; see `MetaNullPrunedFirst`) |
| Normalizer.NullEntryIsAbsent | user_resource_handler.go:271-274 | a null-valued key cleans exactly as an absent one |
| Normalizer.MetaNullPrunedFirst | user_resource_handler.go:305-308 | a null entry in a stored `meta` reads back exactly as if it were absent, because cleaning runs before the decode |
| Normalizer.MetaNeedsStringValues | user_resource_handler.go:313-317 | one value in `meta` that is neither a string nor null makes the whole metadata zero |
| Normalizer.ExtractStable | user_resource_handler.go:343-351 | converting a cleaned document gives the same resource as converting the original, as Patch relies on when it converts twice |
| Normalizer.ToDocument | user_resource_handler.go:60 | the stored document is the attributes with `id`, `meta` (lower-case keys) and, when present, `externalId` written over them; with no external id the attributes' own `externalId` is kept if there is one, and no `externalId` key is added if there is none |
| Normalizer.MetaRoundTrip | user_resource_handler.go:308-338 | metadata written in the stored layout is read back unchanged |
| Normalizer.DocumentRoundTrip | user_resource_handler.go:343-351 | a resource with pruned attributes, once stored, converts back with the same id, external id and metadata, and its attributes are the stored document |
| PatchEngine.MergeInto | user_resource_handler.go:182-191 | the merge loop writes each key of the value map once, combined by the handler's rule, and leaves every other key as it was |
| PatchEngine.ApplyOperations | user_resource_handler.go:175-205 | the operation loop computes `ApplyOps`: operations in order, stopping at the first panic |
| PatchEngine.PanicIsFinal | user_resource_handler.go:181 | once a prefix of the request panics, the whole request ends in that state |
| PatchEngine.RequestOrder | user_resource_handler.go:175 | running `a + b` is running `a` and then `b` on its result |
| PatchEngine.FirstOpFirst | user_resource_handler.go:175 | the first operation is applied to the stored map and the rest see its effect |
| PatchEngine.UntouchedKeyKept | user_resource_handler.go:175-205 | a key that no operation names keeps its value, or stays absent |
| PatchEngine.PathSetsKey | user_resource_handler.go:178-179 | add or replace with a path sets that key to the value; remove writes null under its path |
| PatchEngine.RemovedKeyIsPruned | user_resource_handler.go:202-203 | a key removed by a successful request, and not written again, is absent once the document is cleaned |
| PatchEngine.AddWithoutPathSplices | user_resource_handler.go:180-191 | store-backed add: a list value extends the old list, or is put onto an empty list when the old value is not a list (see Left out for an empty list over an absent or null value); any other value overwrites; other keys untouched |
| PatchEngine.AddWithoutPathAppendsOne | resource.go:138-147 | in-memory add: with an old list the new value becomes one more element; otherwise it overwrites; other keys untouched |
| PatchEngine.ReplaceWithoutPathOverwrites | user_resource_handler.go:196-200 | replace without a path is the old map overridden by the value map |
| PatchEngine.NonMapValuePanics | user_resource_handler.go:181 | without a path, a value that is not a map panics and leaves the map as it was |
| PatchEngine.MergeRulesDiffer | resource.go:141-143 | the same add splices in the store-backed handler and nests in the in-memory one |
| Pagination.PageWindow | user_resource_handler.go:97-104 | `from` is `startIndex - 1` or 0; the count is clamped to what is left when it reaches the end; the slice is in bounds exactly when `from <= n` and the count is not negative, and then ends at `min(from + count, n)` |
| Pagination.PageWindowExamples | user_resource_handler.go:97-105 | over 20 items: (1, 10) gives items 1-10; (15, 10) gives items 15-20 with the count rewritten to 6; (25, 5) is out of bounds |
| Pagination.IterationWindow | resource.go:77-89 | a position is kept exactly when its 1-based counter lies between `startIndex` and `startIndex + count - 1` |
| Pagination.IterationWindowAtMostCount | resource.go:78-82 | with a start index of at least 1 the page holds at most `count` resources |
| Pagination.IterationWindowLowStart | resource.go:78-82 | with a start index of 0 or less the page starts at the first item and holds `startIndex + count - 1` of them |
| DocumentStore.WithObjectId | db/mongo.go:43-46 | an inserted document gains an `_id` when it has none and keeps all its fields |
| DocumentStore.Without | user_resource_handler.go:161 | deletion leaves exactly the other ids, and leaves the sequence unchanged when the id is absent |
| DocumentStore.WithoutCutsOut | user_resource_handler.go:161 | in a duplicate-free order, deletion cuts out exactly the one occurrence of the id and keeps the rest in order |
| DocumentStore.ListOf | user_resource_handler.go:85 | the listing holds the documents named by the order, one for one |
| DocumentStore.DocStore.Find | user_resource_handler.go:70-76 | a stored document (never empty) or the empty document when the id is absent |
| DocumentStore.DocStore.ListAll | user_resource_handler.go:85 | every stored document, in listing order |
| DocumentStore.DocStore.Insert | db/mongo.go:43-46 | the document is stored with an `_id` under a new id and listed last |
| DocumentStore.DocStore.Delete | user_resource_handler.go:125 | exactly that id is removed from the documents and from the order |
| UserHandler.Create | user_resource_handler.go:44-65 | the stored and returned resource has the new id, the normalised external id and attributes, resource type `User`, location `Users/<id>`, and `created` equal to `lastModified` equal to now; an insert failure is an internal error with the store unchanged |
| UserHandler.Get | user_resource_handler.go:68-79 | internal error, not found, or the stored document without `_id`, normalised |
| UserHandler.NormalizeAll | user_resource_handler.go:105-108 | the loop over the selected documents yields each one without `_id`, normalised, in order |
| UserHandler.GetAll | user_resource_handler.go:82-114 | an empty store gives an empty page; otherwise, in bounds, the normalised documents `from..to` with the true total and the count written back; out of bounds, a slice panic |
| UserHandler.Replace | user_resource_handler.go:117-147 | not found leaves the store as it was; otherwise the old document is deleted and the new one holds the request's attributes, resource type and location, the stored `created` and `lastModified` now; an insert failure leaves the user deleted |
| UserHandler.Delete | user_resource_handler.go:150-163 | internal error, not found (store unchanged), or exactly that user removed |
| UserHandler.Patch | user_resource_handler.go:166-231 | a panic leaves the store unchanged; otherwise the user is re-stored with the patched, normalised document, its metadata read from it and `lastModified` now; an insert failure leaves the user deleted |
| UserHandler.MetaDependsOnMetaOnly | user_resource_handler.go:308-338 | the metadata read from a document depends on its `meta` entry alone |
| UserHandler.PatchKeepsCreated | user_resource_handler.go:209-224 | a patch that does not touch `meta` keeps the id, `created`, resource type and location, and sets `lastModified` to now |
| UserHandler.StoredReadsBack | user_resource_handler.go:60-79 | a stored resource with pruned attributes reads back with the same id, external id and metadata, even when its attributes carry an `_id` of their own |
| UserHandler.CreatedReadsBack | user_resource_handler.go:44-79 | a created user read back has the same id, external id and metadata |
| MemoryHandler.DigitChar | resource.go:28 | a digit character whose value is the digit |
| MemoryHandler.Pad4 | resource.go:28 | the id is four decimal digits that denote the random draw |
| MemoryHandler.Pad4Injective | resource.go:28 | different draws give different ids |
| MemoryHandler.OpOnNilMap | resource.go:133-160 | on an absent id an operation panics unless it is an add or replace without a path of the empty map |
| MemoryHandler.NilMapPanic | resource.go:133-160 | a request on an absent id succeeds exactly when no operation writes, and otherwise panics as the first writing operation does, every earlier operation writing nothing |
| MemoryHandler.ResourceHandler.Create | resource.go:25-47 | the table maps the new four-digit id to the given (shared) attribute map with no metadata; version `v<id>`, `created` and `lastModified` both present and equal to now |
| MemoryHandler.ResourceHandler.Get | resource.go:50-70 | not found, or the stored attribute map itself with timestamps always present (pointers to times), holding the stored text, which is empty when absent and stands for the zero time |
| MemoryHandler.ResourceHandler.GetAll | resource.go:73-95 | the kept resources are exactly the iteration positions inside `IterationWindow`, in iteration order, each with the empty metadata (no timestamps, as the nil pointers of `scim.Meta{}`), with the table's size as total |
| MemoryHandler.ResourceHandler.Replace | resource.go:98-115 | not found (table unchanged), or the entry's attribute map replaced and its metadata dropped, returning the empty metadata (no timestamps) |
| MemoryHandler.ResourceHandler.Delete | resource.go:118-129 | not found (table unchanged), or exactly that entry removed |
| MemoryHandler.ResourceHandler.Patch | resource.go:132-176 | the table is unchanged and the shared attribute map holds the result of the operations (the partial result on a panic); the version is the stored one plus `.patch`, `created` is the stored text and `lastModified` is now, both present; an absent id panics exactly as `NilMapPanic` says |
| Provisioning.UrlOf | scim/provisioning_client.go:20-31 | the base URI, then `/` and the identifier verbatim when non-empty, then `?` always, then the encoded parameters |
| Provisioning.Url | scim/provisioning_client.go:20-31 | the accumulating loop over the parameters builds exactly `UrlOf` |
| Provisioning.UrlDeterminesIdentifier | scim/provisioning_client.go:22-24 | for one client, different identifiers give different URLs |
| Provisioning.NoParamsEndsInQuestionMark | scim/provisioning_client.go:25-29 | with no parameters the URL still ends in `?` |
| Provisioning.DecodedFields | scim/provisioning_client.go:58-61 | decoding succeeds exactly for a JSON object or `null` |
| Provisioning.PostOutcome | scim/provisioning_client.go:51-75 | accepted exactly for a 201 whose body decodes to a map with string `externalId` and `id`; then the id is that `id` and the extra attributes hold exactly `externalId`; a non-201 status is an error carrying the body; a body that does not decode is a decode error |
| Provisioning.ExternalIdCheckedBeforeId | scim/provisioning_client.go:63-72 | a missing `externalId` is reported even when `id` is missing too |
| Provisioning.MissingIdReported | scim/provisioning_client.go:68-72 | with a string `externalId`, a missing or non-string `id` is the error |
| Provisioning.NullBodyLacksExternalId | scim/provisioning_client.go:58-67 | a 201 with body `null` decodes to an empty map and fails on `externalId` |
| Provisioning.OtherFieldsIgnored | scim/provisioning_client.go:63-75 | fields other than `id` and `externalId` do not affect the outcome |

## Left out

- HTTP transport is not modelled: building requests, `http.DefaultClient.Do`, reading bodies and logging. The provisioning client's `Patch` and `Delete` are only transport. No handler operation calls the provisioning client.
- The MongoDB driver is replaced by the abstract `DocStore`: connection, ping and context timeouts (db/mongo.go) are not modelled. The shown store interface declares only `Insert`; `Find`, `GetAll` and `Delete` are modelled from how the handler uses them.
- A failing store call is a boolean parameter of each handler operation. The store-backed `Delete` always succeeds in the model, because the handler ignores its result.
- `main.go`, `schema/complex.go` and configuration loading are not part of this model.
- `scim.Resource.Map`, which serialises a resource to the stored document, is not part of this model. `Normalizer.ToDocument` stands in for it, following the lower-case `meta` layout that `extractUserData` reads back (user_resource_handler.go:318-336).
- Normalizer.MetaOf: the timestamps stay RFC 3339 text. The source parses them with `time.Parse`, so text that does not parse becomes the zero time; that is not modelled.
- MemoryHandler.ResourceHandler.Get: `created` and `lastModified` are the stored text, not the parsed time (zero when unparseable).
- MemoryHandler.ResourceHandler.Patch: `created` is the stored text, not the parsed time.
- Normalizer.MetaOf: `bson.MarshalExtJSON` followed by decoding into a map of strings is modelled as "`meta` is a map whose values are all strings or null (read as the empty string)".
- Numbers are mathematical integers. The JSON round trips inside `getMap` and `getSlice`, which turn numbers into `float64`, are not modelled.
- UserHandler.Create: requires a fresh id made of UUID characters. The UUID source is outside the model, and `url.PathEscape` leaves such text unchanged.
- `url.Values.Encode` is an uninterpreted function parameter, so percent-encoding of the parameters is not modelled.
- MemoryHandler.ResourceHandler.GetAll: Go's map iteration order is a parameter. The parameters are passed as two integers because the source takes them by value.
- Provisioning.PostOutcome: the non-201 error carries the raw body. The source passes the body to `fmt.Errorf` as a format string, so `%` verbs in the body would be rewritten.
- PatchEngine.AddWithoutPathSplices: when the old value is absent or null and the added list is empty, the source keeps the nil slice that decoding `null` leaves. Cleaning keeps that typed nil and turns it into a nil map, which is stored and encoded as `null`. The model stores an empty list instead: Go's typed nils are not modelled.
- Normalizer.CleanElem: a null list element passes through `getMap` as a nil map, which encodes as `null` again; the model keeps `Null`, the same encoding, without the intermediate nil map.
- Integers are unbounded. Go's 64-bit `int` wraps around in `from+params.Count` (user_resource_handler.go:101) and `to = from + params.Count` (:104) and in `params.StartIndex + params.Count - 1` (resource.go:78) for extreme parameters; that wrap-around is not modelled.
- DocumentStore.DocStore.ListAll: the listing order is fixed as insertion order. `Insert` appends, so `Replace` and `Patch`, which delete and insert, move a user to the end. MongoDB's natural order gives no such promise.
- Concurrency is not modelled. In Replace and Patch the delete and the insert are separate store calls, and concurrent requests can interleave between them.
- The in-memory table being nil (so that Create panics) is not modelled: the table is always a map.

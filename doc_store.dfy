/**
 * An abstract stand-in for the MongoDB collection the store-backed handler uses: documents
 * addressed by their `id` field, listed in insertion order. The collection adds an `_id`
 * object id to every document inserted without one.
 */
module DocumentStore {
  import opened JsonValues
  import opened Sequences

  /** The document as the collection keeps it: with an `_id`, the given one or a new object id. */
  function WithObjectId(doc: Doc, oid: string): (stored: Doc)
    ensures "_id" in stored
    ensures forall k :: k in doc ==> k in stored && stored[k] == doc[k]
    ensures stored.Keys == doc.Keys + {"_id"}
  {
    if "_id" in doc then doc else doc["_id" := Str(oid)]
  }

  /** `s` without the element `x`, order kept; nothing changes when `x` is absent. */
  function Without(s: seq<string>, x: string): (r: seq<string>)
    ensures forall y :: y in r <==> y in s && y != x
    ensures |r| <= |s|
    ensures x !in s ==> r == s
  {
    if s == [] then []
    else if s[0] == x then Without(s[1..], x)
    else [s[0]] + Without(s[1..], x)
  }

  /** In a sequence without duplicates, exactly the one occurrence of `x` is cut out, the rest in order. */
  lemma {:induction false} WithoutCutsOut(s: seq<string>, x: string, i: nat)
    requires NoDuplicates(s)
    requires i < |s| && s[i] == x
    ensures Without(s, x) == s[..i] + s[i + 1..]
    decreases |s|
  {
    if i == 0 {
      assert x !in s[1..];
    } else {
      assert NoDuplicates(s[1..]);
      WithoutCutsOut(s[1..], x, i - 1);
      assert s[..i] == [s[0]] + s[1..][..i - 1];
      assert s[i + 1..] == s[1..][i..];
    }
  }

  /** The documents named by `order`, in that order. */
  function ListOf(docs: map<string, Doc>, order: seq<string>): (list: seq<Doc>)
    requires forall id :: id in order ==> id in docs
    ensures |list| == |order|
    ensures forall i :: 0 <= i < |order| ==> list[i] == docs[order[i]]
  {
    if order == [] then [] else [docs[order[0]]] + ListOf(docs, order[1..])
  }

  lemma {:induction false} WithoutKeepsNoDuplicates(s: seq<string>, x: string)
    requires NoDuplicates(s)
    ensures NoDuplicates(Without(s, x))
    decreases |s|
  {
    if s != [] {
      WithoutKeepsNoDuplicates(s[1..], x);
      assert s[0] !in s[1..];
    }
  }

  class DocStore {
    /** The documents, by the value of their `id` field. */
    var docs: map<string, Doc>
    /** The order in which listing returns them. */
    var order: seq<string>

    ghost predicate Valid()
      reads this
    {
      && NoDuplicates(order)
      && (forall id :: id in docs <==> id in order)
      && (forall id :: id in docs ==> "_id" in docs[id])
    }

    constructor ()
      ensures Valid() && docs == map[] && order == []
    {
      docs := map[];
      order := [];
    }

    /** Every document, in listing order. */
    function Listing(): seq<Doc>
      reads this
      requires Valid()
    {
      ListOf(docs, order)
    }

    /** Find by id: the document, or the empty document when there is none. */
    method Find(id: string) returns (doc: Doc)
      requires Valid()
      ensures id in docs ==> doc == docs[id] && |doc| > 0
      ensures id !in docs ==> doc == map[]
    {
      if id in docs {
        doc := docs[id];
        assert "_id" in doc;
      } else {
        doc := map[];
      }
    }

    /** List every document, in listing order. */
    method ListAll() returns (data: seq<Doc>)
      requires Valid()
      ensures data == Listing()
    {
      data := ListOf(docs, order);
    }

    /** Insert a document under an id the collection does not hold; it is listed last. */
    method Insert(id: string, doc: Doc, oid: string)
      requires Valid()
      requires id !in docs
      modifies this
      ensures Valid()
      ensures docs == old(docs)[id := WithObjectId(doc, oid)]
      ensures order == old(order) + [id]
    {
      docs := docs[id := WithObjectId(doc, oid)];
      order := order + [id];
    }

    /** Delete by id; nothing happens when the id is absent. */
    method Delete(id: string)
      requires Valid()
      modifies this
      ensures Valid()
      ensures docs == old(docs) - {id}
      ensures order == Without(old(order), id)
    {
      WithoutKeepsNoDuplicates(order, id);
      docs := docs - {id};
      order := Without(order, id);
    }
  }
}

/**
 * `DocumentStore`: the document operations of the service over one Chroma
 * collection. Adding validates the whole batch before anything is stored;
 * queries and listings only read the collection; deletion by an unknown id
 * does nothing.
 */
module Store {
  import opened Wrappers
  import opened Chroma
  import Builtins

  /** The two `ValueError`s of `add_documents`. */
  datatype StoreError =
    | NoDocumentsProvided  // the batch is empty
    | EmptyDocument        // some text of the batch is empty

  /**
   * The checks `add_documents` makes before it stores anything: an empty
   * batch is refused first, then the batch is scanned for an empty text.
   */
  method ValidateDocuments(documents: seq<string>) returns (r: Outcome<StoreError>)
    ensures r == Fail(NoDocumentsProvided) <==> documents == []
    ensures r == Fail(EmptyDocument) <==> documents != [] && "" in documents
    ensures r == Pass <==> documents != [] && "" !in documents
  {
    if |documents| == 0 {
      return Fail(NoDocumentsProvided);
    }
    for i := 0 to |documents|
      invariant forall j :: 0 <= j < i ==> documents[j] != ""
    {
      if documents[i] == "" {
        return Fail(EmptyDocument);
      }
    }
    return Pass;
  }

  /** The first row of a search reply, or nothing when the reply or its rows are empty. */
  function FirstRow(results: QueryResult): (row: seq<string>)
    ensures results.EmptyQuery? || results.documents.None? ==> row == []
    ensures results.Found? && results.documents.Some? && |results.documents.value| > 0 ==>
      row == results.documents.value[0]
    ensures row != [] ==> results.Found? && results.documents.Some? && |results.documents.value| > 0 && row == results.documents.value[0]
  {
    if results.EmptyQuery? then []
    else if results.documents.None? || |results.documents.value| == 0 then []
    else results.documents.value[0]
  }

  /** A `get()` reply as `(id, text)` pairs, or nothing when it carries no texts. */
  function Listing(result: GetResult): (pairs: seq<(string, string)>)
    ensures result.EmptyGet? || result.documents.None? ==> pairs == []
    ensures result.Got? && result.documents.Some? ==>
      |pairs| <= |result.ids| && |pairs| <= |result.documents.value| &&
      (|pairs| == |result.ids| || |pairs| == |result.documents.value|) &&
      forall i :: 0 <= i < |pairs| ==> pairs[i] == (result.ids[i], result.documents.value[i])
  {
    if result.EmptyGet? || result.documents.None? then []
    else Builtins.Zip(result.ids, result.documents.value)
  }

  class DocumentStore {
    const collection: Collection

    constructor (collection: Collection)
      ensures this.collection == collection
    {
      this.collection := collection;
    }

    /**
     * `add_documents`: a batch that fails validation raises and leaves the
     * collection as it was; otherwise every text is stored, in order, under
     * its own fresh id. `uuid(i)` is the id drawn for the `i`-th text; the
     * caller promises what `uuid4` gives: ids distinct within the batch and
     * new to the collection.
     */
    method AddDocuments(documents: seq<string>, uuid: nat -> string) returns (r: Outcome<StoreError>)
      requires collection.Valid()
      requires forall i, j :: 0 <= i < j < |documents| ==> uuid(i) != uuid(j)
      requires forall i :: 0 <= i < |documents| ==> uuid(i) !in Ids(collection.entries)
      modifies collection
      ensures collection.Valid()
      ensures r == Fail(NoDocumentsProvided) <==> documents == []
      ensures r == Fail(EmptyDocument) <==> documents != [] && "" in documents
      ensures r == Pass <==> documents != [] && "" !in documents
      ensures r.Fail? ==> collection.entries == old(collection.entries)
      ensures r.Pass? ==>
        collection.entries ==
          old(collection.entries) + seq(|documents|, i requires 0 <= i < |documents| => Entry(uuid(i), documents[i]))
      ensures r.Pass? ==> |collection.entries| == old(|collection.entries|) + |documents|
      ensures r.Pass? ==> forall t :: t in documents ==> t in Texts(collection.entries)
    {
      r := ValidateDocuments(documents);
      if r.Fail? {
        return;
      }
      var ids := seq(|documents|, i requires 0 <= i < |documents| => uuid(i));
      collection.Add(documents, ids);
      forall t | t in documents ensures t in Texts(collection.entries) {
        var k :| 0 <= k < |documents| && documents[k] == t;
        assert Texts(collection.entries)[|old(collection.entries)| + k] == t;
      }
    }

    /**
     * `query`: the texts of the first row of Chroma's reply, or nothing.
     * When the reply is one Chroma may give, there are at most `nResults`
     * of them and each is a stored text.
     */
    function Query(query: string, search: Search, nResults: int := 1): (r: seq<string>)
      reads collection
      ensures Answers(search(Texts(collection.entries), query, nResults), Texts(collection.entries), nResults) ==>
        |r| <= nResults && multiset(r) <= multiset(Texts(collection.entries))
      ensures
        var reply := search(Texts(collection.entries), query, nResults);
        reply.Found? && reply.documents.Some? && |reply.documents.value| > 0 ==> r == reply.documents.value[0]
      ensures
        var reply := search(Texts(collection.entries), query, nResults);
        r != [] ==> reply.Found? && reply.documents.Some? && |reply.documents.value| > 0
    {
      FirstRow(search(Texts(collection.entries), query, nResults))
    }

    /** `get_all_documents`: every stored entry as an `(id, text)` pair, in collection order. */
    function GetAllDocuments(): (r: seq<(string, string)>)
      reads collection
      ensures |r| == |collection.entries|
      ensures forall i :: 0 <= i < |r| ==> r[i] == (collection.entries[i].id, collection.entries[i].text)
    {
      Listing(collection.Get())
    }

    /**
     * `delete_document`: the entry with that id is removed and every other
     * entry stays; an unknown id leaves the collection unchanged.
     */
    method DeleteDocument(documentId: string)
      requires collection.Valid()
      modifies collection
      ensures collection.Valid()
      ensures collection.entries == Without(old(collection.entries), documentId)
      ensures documentId !in Ids(old(collection.entries)) ==> collection.entries == old(collection.entries)
      ensures documentId in Ids(old(collection.entries)) ==>
        |collection.entries| == |old(collection.entries)| - 1 &&
        documentId !in Ids(collection.entries) &&
        forall e :: e in old(collection.entries) && e.id != documentId ==> e in collection.entries
    {
      ghost var before := collection.entries;
      if documentId in Ids(before) {
        var k :| 0 <= k < |before| && Ids(before)[k] == documentId;
        WithoutKnown(before, documentId, k);
        WithoutMembers(before, documentId);
      } else {
        WithoutUnknown(before, documentId);
      }
      collection.Delete(documentId);
    }
  }
}

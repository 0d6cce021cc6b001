/**
 * The engine wired to a document store, and the situations the program's
 * own test suite sets up, stated as client code of the two models.
 */
module Scenarios {
  import opened Wrappers
  import opened Chroma
  import opened Store
  import QA

  /**
   * `QAEngine(document_store=store).answer_question(...)`: the engine's
   * retriever is the store's `query` over the collection as it is now.
   * An empty collection gives `None`; an answer carries exactly what the
   * store's query returned.
   */
  method AnswerFromStore(store: DocumentStore, search: Search, complete: string -> seq<QA.ToolCall>,
                         question: string, nDocuments: int)
    returns (r: Option<QA.Answer>)
    ensures store.collection.entries == [] && Answers(search([], question, nDocuments), [], nDocuments) ==> r == None
    ensures r.Some? ==> r.value.documents == store.Query(question, search, nDocuments) && r.value.text != QA.DontKnow
  {
    var texts := Texts(store.collection.entries);
    var engine := QA.QAEngine((q, n) => FirstRow(search(texts, q, n)), complete);
    assert engine.query(question, nDocuments) == store.Query(question, search, nDocuments);
    r := engine.AnswerQuestion(question, nDocuments);
    if store.collection.entries == [] && Answers(search([], question, nDocuments), [], nDocuments) {
      assert Texts(store.collection.entries) == [];
      var row := store.Query(question, search, nDocuments);
      assert multiset(row) <= multiset([]);
      assert |row| == |multiset(row)|;
      assert row == [];
    }
  }

  /** Ids for a batch of up to three texts, as `uuid4` would give: pairwise distinct. */
  function SampleIds(i: nat): string
  {
    if i == 0 then "4f1c" else if i == 1 then "9b2e" else "c07d"
  }

  /** Adding two texts to an empty collection stores both, and the listing shows two entries. */
  method AddTwo() returns (listing: seq<(string, string)>)
    ensures |listing| == 2
    ensures exists i :: 0 <= i < |listing| && listing[i].1 == "hello world"
    ensures exists i :: 0 <= i < |listing| && listing[i].1 == "how are you doing today"
  {
    var collection := new Collection();
    var store := new DocumentStore(collection);
    var batch := ["hello world", "how are you doing today"];
    assert batch[0] != "" && batch[1] != "";
    var r := store.AddDocuments(batch, SampleIds);
    listing := store.GetAllDocuments();
    assert listing[0].1 == "hello world" && listing[1].1 == "how are you doing today";
  }

  /** An empty batch is refused and nothing is stored. */
  method AddNone() returns (r: Outcome<StoreError>, listing: seq<(string, string)>)
    ensures r == Fail(NoDocumentsProvided)
    ensures listing == []
  {
    var collection := new Collection();
    var store := new DocumentStore(collection);
    r := store.AddDocuments([], SampleIds);
    listing := store.GetAllDocuments();
  }

  /** A batch with one empty text is refused as a whole: the valid texts before it are not stored either. */
  method AddWithEmptyText() returns (r: Outcome<StoreError>, listing: seq<(string, string)>)
    ensures r == Fail(EmptyDocument)
    ensures listing == []
  {
    var collection := new Collection();
    var store := new DocumentStore(collection);
    r := store.AddDocuments(["hello world", ""], SampleIds);
    listing := store.GetAllDocuments();
  }

  /** Deleting the first listed id of three leaves the other two. */
  method DeleteListed() returns (before: seq<(string, string)>, after: seq<(string, string)>)
    ensures |before| == 3 && |after| == 2
    ensures before[1] in after && before[2] in after && before[0] !in after
  {
    var collection := new Collection();
    var store := new DocumentStore(collection);
    var batch := ["hello world", "this is a rag test", "hi"];
    assert batch[0] != "" && batch[1] != "" && batch[2] != "";
    var r := store.AddDocuments(batch, SampleIds);
    before := store.GetAllDocuments();
    ghost var old3 := collection.entries;
    store.DeleteDocument(before[0].0);
    after := store.GetAllDocuments();
    assert old3[1] in collection.entries && old3[2] in collection.entries;
    assert Ids(old3)[0] == before[0].0;
    forall i | 0 <= i < |after| ensures after[i] != before[0] {
      assert collection.entries[i].id != before[0].0 by {
        assert Ids(collection.entries)[i] == collection.entries[i].id;
      }
    }
  }

  /** Deleting an id that was never issued leaves all three entries. */
  method DeleteUnknown() returns (before: seq<(string, string)>, after: seq<(string, string)>)
    ensures |before| == 3 && after == before
  {
    var collection := new Collection();
    var store := new DocumentStore(collection);
    var batch := ["hello world", "this is a rag test", "hi"];
    assert batch[0] != "" && batch[1] != "" && batch[2] != "";
    var r := store.AddDocuments(batch, SampleIds);
    before := store.GetAllDocuments();
    assert Ids(collection.entries) == ["4f1c", "9b2e", "c07d"];
    store.DeleteDocument("non_existent");
    after := store.GetAllDocuments();
  }

  /** Listing twice with nothing in between gives the same pairs. */
  method ListTwice(store: DocumentStore) returns (first: seq<(string, string)>, second: seq<(string, string)>)
    ensures first == second
    ensures |first| == |store.collection.entries|
  {
    first := store.GetAllDocuments();
    second := store.GetAllDocuments();
  }
}

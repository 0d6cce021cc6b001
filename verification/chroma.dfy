/**
 * A stand-in for the part of a Chroma collection the document store uses:
 * entries that pair an id with a text, added in batches, deleted by id,
 * listed, and searched through an opaque similarity oracle.
 */
module Chroma {
  import opened Wrappers

  /** One stored document. */
  datatype Entry = Entry(id: string, text: string)

  /** What `collection.get()` returns: an empty reply, or parallel lists of ids and texts. */
  datatype GetResult = EmptyGet | Got(ids: seq<string>, documents: Option<seq<string>>)

  /** What `collection.query(...)` returns: an empty reply, or one row of texts per query text. */
  datatype QueryResult = EmptyQuery | Found(documents: Option<seq<seq<string>>>)

  /**
   * Chroma's similarity search, which the model does not open: given the
   * stored texts, the query text and the number of results asked for, the
   * reply it gives.
   */
  type Search = (seq<string>, string, int) -> QueryResult

  /**
   * What a search reply may contain: Chroma answers only a positive `n`, and
   * every row holds at most `n` texts, each taken from the collection (a
   * stored text appears in a row at most as often as it is stored).
   */
  predicate Answers(result: QueryResult, texts: seq<string>, n: int)
  {
    n >= 1 &&
    (result.Found? && result.documents.Some? ==>
      forall k :: 0 <= k < |result.documents.value| ==>
        |result.documents.value[k]| <= n && multiset(result.documents.value[k]) <= multiset(texts))
  }

  function Ids(entries: seq<Entry>): seq<string>
  {
    seq(|entries|, i requires 0 <= i < |entries| => entries[i].id)
  }

  function Texts(entries: seq<Entry>): seq<string>
  {
    seq(|entries|, i requires 0 <= i < |entries| => entries[i].text)
  }

  /** No two entries share an id. */
  predicate UniqueIds(entries: seq<Entry>)
  {
    forall i, j :: 0 <= i < j < |entries| ==> entries[i].id != entries[j].id
  }

  /** The entries that remain when those with id `id` are deleted, in their order. */
  function Without(entries: seq<Entry>, id: string): seq<Entry>
  {
    if |entries| == 0 then []
    else if entries[0].id == id then Without(entries[1..], id)
    else [entries[0]] + Without(entries[1..], id)
  }

  /** Deleting keeps exactly the entries with another id, and never adds any. */
  lemma {:induction false} WithoutMembers(entries: seq<Entry>, id: string)
    ensures |Without(entries, id)| <= |entries|
    ensures forall e :: e in Without(entries, id) <==> e in entries && e.id != id
  {
    if |entries| > 0 {
      WithoutMembers(entries[1..], id);
      assert entries == [entries[0]] + entries[1..];
    }
  }

  /** Deleting an id no entry carries changes nothing. */
  lemma {:induction false} WithoutUnknown(entries: seq<Entry>, id: string)
    requires id !in Ids(entries)
    ensures Without(entries, id) == entries
  {
    if |entries| > 0 {
      assert Ids(entries)[0] == entries[0].id;
      assert id !in Ids(entries[1..]) by {
        forall m | 0 <= m < |entries| - 1 ensures Ids(entries[1..])[m] != id {
          assert Ids(entries[1..])[m] == Ids(entries)[m + 1];
        }
      }
      WithoutUnknown(entries[1..], id);
      assert entries == [entries[0]] + entries[1..];
    }
  }

  /** With unique ids, deleting the id of entry `k` removes that entry and no other. */
  lemma {:induction false} WithoutKnown(entries: seq<Entry>, id: string, k: nat)
    requires UniqueIds(entries)
    requires k < |entries| && entries[k].id == id
    ensures Without(entries, id) == entries[..k] + entries[k + 1..]
  {
    var tail := entries[1..];
    if k == 0 {
      assert id !in Ids(tail) by {
        forall m | 0 <= m < |tail| ensures Ids(tail)[m] != id {
          assert tail[m] == entries[m + 1];
        }
      }
      WithoutUnknown(tail, id);
      assert Without(entries, id) == Without(tail, id);
      assert entries[..0] + entries[1..] == tail;
    } else {
      assert entries[0].id != id;
      assert Without(entries, id) == [entries[0]] + Without(tail, id);
      assert UniqueIds(tail) by {
        forall i, j | 0 <= i < j < |tail| ensures tail[i].id != tail[j].id {
          assert tail[i] == entries[i + 1] && tail[j] == entries[j + 1];
        }
      }
      assert tail[k - 1] == entries[k];
      WithoutKnown(tail, id, k - 1);
      assert tail[..k - 1] == entries[1..k];
      assert tail[k..] == entries[k + 1..];
      assert [entries[0]] + entries[1..k] == entries[..k];
    }
  }

  /** Removing one entry keeps the remaining ids unique. */
  lemma RemoveKeepsUnique(entries: seq<Entry>, k: nat)
    requires UniqueIds(entries) && k < |entries|
    ensures UniqueIds(entries[..k] + entries[k + 1..])
  {
    var r := entries[..k] + entries[k + 1..];
    forall i, j | 0 <= i < j < |r| ensures r[i].id != r[j].id {
      var i' := if i < k then i else i + 1;
      var j' := if j < k then j else j + 1;
      assert r[i] == entries[i'] && r[j] == entries[j'];
    }
  }

  /** A Chroma collection: its entries, in the order they were added. */
  class Collection {
    var entries: seq<Entry>

    /** Chroma keeps ids unique within a collection. */
    ghost predicate Valid()
      reads this
    {
      UniqueIds(entries)
    }

    constructor ()
      ensures Valid() && entries == []
    {
      entries := [];
    }

    /**
     * `collection.add(documents=..., ids=...)`: one entry per text, with
     * the id at the same position, after the existing entries.
     */
    method Add(documents: seq<string>, ids: seq<string>)
      requires Valid()
      requires |ids| == |documents|
      requires forall i, j :: 0 <= i < j < |ids| ==> ids[i] != ids[j]
      requires forall i :: 0 <= i < |ids| ==> ids[i] !in Ids(entries)
      modifies this
      ensures Valid()
      ensures entries == old(entries) + seq(|ids|, i requires 0 <= i < |ids| => Entry(ids[i], documents[i]))
    {
      var added := seq(|ids|, i requires 0 <= i < |ids| => Entry(ids[i], documents[i]));
      var all := entries + added;
      forall i, j | 0 <= i < j < |all| ensures all[i].id != all[j].id {
        if j >= |entries| && i < |entries| {
          assert Ids(entries)[i] == all[i].id;
        }
      }
      entries := all;
    }

    /** `collection.delete(ids=[id])`: every entry with that id goes; an unknown id is ignored. */
    method Delete(id: string)
      requires Valid()
      modifies this
      ensures Valid()
      ensures entries == Without(old(entries), id)
    {
      if id in Ids(entries) {
        var k :| 0 <= k < |entries| && Ids(entries)[k] == id;
        WithoutKnown(entries, id, k);
        RemoveKeepsUnique(entries, k);
      } else {
        WithoutUnknown(entries, id);
      }
      entries := Without(entries, id);
    }

    /** `collection.get()`: all ids and all texts, position by position. */
    function Get(): (r: GetResult)
      reads this
      ensures r.Got? && r.documents.Some?
      ensures |r.ids| == |entries| && |r.documents.value| == |entries|
      ensures forall i :: 0 <= i < |entries| ==> r.ids[i] == entries[i].id && r.documents.value[i] == entries[i].text
    {
      Got(Ids(entries), Some(Texts(entries)))
    }
  }
}

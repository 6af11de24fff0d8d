/** The one kind of collection query the routes issue:
    `Model.find(filter).sort({ key: -1 })`. A collection is a map from document
    id to document; the query answers with the ids of the matching documents,
    newest first. Documents with equal keys may come in any order, as MongoDB
    does not promise one. */
module Query {

  /** `ids` is a correct answer: every matching document exactly once, no other
      document, and the keys never increase along the list. */
  predicate IsSortedSelection<D>(ids: seq<string>, docs: map<string, D>, keep: D -> bool, key: D -> int) {
    && (forall k :: 0 <= k < |ids| ==> ids[k] in docs && keep(docs[ids[k]]))
    && (forall id :: id in docs && keep(docs[id]) ==> id in ids)
    && (forall i, j :: 0 <= i < j < |ids| ==> ids[i] != ids[j])
    && (forall i, j :: 0 <= i < j < |ids| ==> key(docs[ids[i]]) >= key(docs[ids[j]]))
  }

  /** The matching documents, as a set. */
  function Matching<D>(docs: map<string, D>, keep: D -> bool): set<string> {
    set id | id in docs && keep(docs[id])
  }

  /** The list length a route reports as `count` or `results` is the number of
      matching documents. */
  lemma {:induction false} SelectionCount<D>(ids: seq<string>, docs: map<string, D>, keep: D -> bool, key: D -> int)
    requires IsSortedSelection(ids, docs, keep, key)
    ensures |ids| == |Matching(docs, keep)|
    decreases |ids|
  {
    if ids == [] {
      assert Matching(docs, keep) == {};
    } else {
      var last := ids[|ids| - 1];
      var rest := docs - {last};
      assert IsSortedSelection(ids[..|ids| - 1], rest, keep, key) by {
        forall id | id in rest && keep(rest[id]) ensures id in ids[..|ids| - 1] {
          var k :| 0 <= k < |ids| && ids[k] == id;
          assert k != |ids| - 1;
        }
      }
      SelectionCount(ids[..|ids| - 1], rest, keep, key);
      assert Matching(docs, keep) == Matching(rest, keep) + {last};
    }
  }

  /** Puts `id` into the descending list `ids` after every document whose key
      is at least as large. */
  method InsertDescending<D>(ids: seq<string>, id: string, docs: map<string, D>, key: D -> int) returns (r: seq<string>)
    requires id in docs && id !in ids
    requires forall k :: 0 <= k < |ids| ==> ids[k] in docs
    requires forall i, j :: 0 <= i < j < |ids| ==> ids[i] != ids[j]
    requires forall i, j :: 0 <= i < j < |ids| ==> key(docs[ids[i]]) >= key(docs[ids[j]])
    ensures forall x :: x in r <==> x in ids || x == id
    ensures forall k :: 0 <= k < |r| ==> r[k] in docs && (r[k] in ids || r[k] == id)
    ensures forall i, j :: 0 <= i < j < |r| ==> r[i] != r[j]
    ensures forall i, j :: 0 <= i < j < |r| ==> key(docs[r[i]]) >= key(docs[r[j]])
  {
    var p := 0;
    while p < |ids| && key(docs[ids[p]]) >= key(docs[id])
      invariant 0 <= p <= |ids|
      invariant forall k :: 0 <= k < p ==> key(docs[ids[k]]) >= key(docs[id])
    {
      p := p + 1;
    }
    r := ids[..p] + [id] + ids[p..];
    assert |r| == |ids| + 1 && r[p] == id;
    assert forall k :: 0 <= k < p ==> r[k] == ids[k];
    assert forall k :: p < k < |r| ==> r[k] == ids[k - 1];
    forall k | 0 <= k < |r| ensures r[k] in docs && (r[k] in ids || r[k] == id) {
      if k < p {
        assert r[k] == ids[k];
      } else if k > p {
        assert r[k] == ids[k - 1];
      }
    }
    forall x | x in ids ensures x in r {
      var k :| 0 <= k < |ids| && ids[k] == x;
      if k < p {
        assert r[k] == x;
      } else {
        assert r[k + 1] == x;
      }
    }
    forall i, j | 0 <= i < j < |r| ensures r[i] != r[j] && key(docs[r[i]]) >= key(docs[r[j]]) {
      if j < p {
        assert r[i] == ids[i] && r[j] == ids[j];
      } else if j == p {
        assert r[i] == ids[i] && r[j] == id;
      } else if i < p {
        assert r[i] == ids[i] && r[j] == ids[j - 1];
      } else if i == p {
        assert r[i] == id && r[j] == ids[j - 1];
      } else {
        assert r[i] == ids[i - 1] && r[j] == ids[j - 1];
      }
    }
  }

  /** Runs the query over the whole collection. */
  method SortedSelection<D>(docs: map<string, D>, keep: D -> bool, key: D -> int) returns (ids: seq<string>)
    ensures IsSortedSelection(ids, docs, keep, key)
  {
    ids := [];
    var rest := docs.Keys;
    while rest != {}
      invariant rest <= docs.Keys
      invariant forall k :: 0 <= k < |ids| ==> ids[k] in docs && ids[k] !in rest && keep(docs[ids[k]])
      invariant forall id :: id in docs && id !in rest && keep(docs[id]) ==> id in ids
      invariant forall i, j :: 0 <= i < j < |ids| ==> ids[i] != ids[j]
      invariant forall i, j :: 0 <= i < j < |ids| ==> key(docs[ids[i]]) >= key(docs[ids[j]])
      decreases rest
    {
      var id :| id in rest;
      if keep(docs[id]) {
        ids := InsertDescending(ids, id, docs, key);
      }
      rest := rest - {id};
    }
  }
}

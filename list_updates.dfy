/** The three updates the master-data pages apply to a list of records keyed by a numeric id
    after the server answers: replace by id, append, remove by id. */
module ListUpdates {
  import Seqs

  /** `list.map(x => x.id === id ? y : x)`. */
  function ReplaceById<T>(s: seq<T>, key: T -> nat, id: nat, y: T): (r: seq<T>)
    ensures |r| == |s|
    ensures forall i :: 0 <= i < |s| && key(s[i]) != id ==> r[i] == s[i]
    ensures forall i :: 0 <= i < |s| && key(s[i]) == id ==> r[i] == y
  {
    Seqs.ReplaceWhere(s, (x: T) => key(x) == id, y)
  }

  /** `list.filter(x => x.id !== id)`. */
  function RemoveById<T>(s: seq<T>, key: T -> nat, id: nat): (r: seq<T>)
    ensures forall i :: 0 <= i < |r| ==> r[i] in s && key(r[i]) != id
    ensures forall i :: 0 <= i < |s| && key(s[i]) != id ==> s[i] in r
  {
    Seqs.Filter(s, OtherId(key, id))
  }

  function OtherId<T>(key: T -> nat, id: nat): T -> bool {
    (x: T) => key(x) != id
  }

  /** In a list keyed by id, replacing by the id of the entry at `k` is writing `y` at `k`,
      and the list stays keyed by id when `y` keeps that id. */
  lemma ReplaceByIdIsUpdateAt<T>(s: seq<T>, key: T -> nat, y: T, k: nat)
    requires Seqs.DistinctBy(s, key) && k < |s|
    ensures ReplaceById(s, key, key(s[k]), y) == s[k := y]
    ensures key(y) == key(s[k]) ==> Seqs.DistinctBy(ReplaceById(s, key, key(s[k]), y), key)
  {
    var r := ReplaceById(s, key, key(s[k]), y);
    forall i | 0 <= i < |s| && i != k
      ensures key(s[i]) != key(s[k])
    {
      if i < k {
        assert key(s[i]) != key(s[k]);
      } else {
        assert key(s[k]) != key(s[i]);
      }
    }
    assert r == s[k := y];
  }

  /** Replacing an id no entry has changes nothing. */
  lemma ReplaceMissingIdIsNoOp<T>(s: seq<T>, key: T -> nat, id: nat, y: T)
    requires forall i :: 0 <= i < |s| ==> key(s[i]) != id
    ensures ReplaceById(s, key, id, y) == s
  {
  }

  /** In a list keyed by id, removing the id of the entry at `k` removes exactly that entry,
      and the list stays keyed by id. */
  lemma RemoveByIdIsRemoveAt<T>(s: seq<T>, key: T -> nat, k: nat)
    requires Seqs.DistinctBy(s, key) && k < |s|
    ensures RemoveById(s, key, key(s[k])) == s[..k] + s[k + 1..]
    ensures Seqs.DistinctBy(RemoveById(s, key, key(s[k])), key)
  {
    var keep := OtherId(key, key(s[k]));
    forall i | 0 <= i < |s| && i != k
      ensures keep(s[i])
    {
      if i < k {
        assert key(s[i]) != key(s[k]);
      } else {
        assert key(s[k]) != key(s[i]);
      }
    }
    Seqs.FilterDropsOne(s, keep, k);
    Seqs.FilterDistinctBy(s, keep, key);
  }

  /** Removing keeps the other entries as often as they occurred and in their order. */
  lemma RemoveByIdKeepsOthers<T>(s: seq<T>, key: T -> nat, id: nat)
    ensures Seqs.IsSubsequence(RemoveById(s, key, id), s)
    ensures forall x :: multiset(RemoveById(s, key, id))[x] == if key(x) == id then 0 else multiset(s)[x]
  {
    Seqs.FilterIsSubsequence(s, OtherId(key, id));
    forall x
      ensures multiset(RemoveById(s, key, id))[x] == if key(x) == id then 0 else multiset(s)[x]
    {
      Seqs.FilterCount(s, OtherId(key, id), x);
    }
  }
}

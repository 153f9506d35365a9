/** The array operations the pages apply to their lists (`filter`, `find`, `map` by index or
    by id), and the facts about them that the page models rely on. */
module Seqs {
  import opened Wrappers

  /** `s.filter(keep)`: the elements satisfying `keep`, in their original order. */
  function Filter<T>(s: seq<T>, keep: T -> bool): (r: seq<T>)
    ensures |r| <= |s|
    ensures forall i :: 0 <= i < |r| ==> r[i] in s && keep(r[i])
    ensures forall i :: 0 <= i < |s| && keep(s[i]) ==> s[i] in r
  {
    if s == [] then [] else (if keep(s[0]) then [s[0]] else []) + Filter(s[1..], keep)
  }

  /** `a` is `b` with some elements left out and the rest kept in order. */
  ghost predicate IsSubsequence<T>(a: seq<T>, b: seq<T>)
    decreases |b|
  {
    a == [] || (b != [] && ((a[0] == b[0] && IsSubsequence(a[1..], b[1..])) || IsSubsequence(a, b[1..])))
  }

  lemma {:induction false} FilterIsSubsequence<T>(s: seq<T>, keep: T -> bool)
    ensures IsSubsequence(Filter(s, keep), s)
  {
    if s != [] {
      var rest := Filter(s[1..], keep);
      FilterIsSubsequence(s[1..], keep);
      if keep(s[0]) {
        assert Filter(s, keep) == [s[0]] + rest;
        assert ([s[0]] + rest)[1..] == rest;
      } else {
        assert Filter(s, keep) == rest;
      }
    }
  }

  /** A filter that keeps every element returns the list itself. */
  lemma {:induction false} FilterKeepsAll<T>(s: seq<T>, keep: T -> bool)
    requires forall i :: 0 <= i < |s| ==> keep(s[i])
    ensures Filter(s, keep) == s
  {
    if s != [] {
      FilterKeepsAll(s[1..], keep);
    }
  }

  lemma {:induction false} FilterAppend<T>(a: seq<T>, b: seq<T>, keep: T -> bool)
    ensures Filter(a + b, keep) == Filter(a, keep) + Filter(b, keep)
  {
    if a == [] {
      assert a + b == b;
    } else {
      assert (a + b)[1..] == a[1..] + b;
      FilterAppend(a[1..], b, keep);
    }
  }

  /** A filter that keeps no element returns the empty list. */
  lemma {:induction false} FilterNone<T>(s: seq<T>, keep: T -> bool)
    requires forall i :: 0 <= i < |s| ==> !keep(s[i])
    ensures Filter(s, keep) == []
  {
    if s != [] {
      FilterNone(s[1..], keep);
    }
  }

  /** Two filters whose predicates agree on the list give the same result. */
  lemma {:induction false} FilterSamePredicate<T>(s: seq<T>, f: T -> bool, g: T -> bool)
    requires forall i :: 0 <= i < |s| ==> f(s[i]) == g(s[i])
    ensures Filter(s, f) == Filter(s, g)
  {
    if s != [] {
      FilterSamePredicate(s[1..], f, g);
    }
  }

  /** Filtering preserves the multiset of the kept elements: every kept occurrence survives. */
  lemma {:induction false} FilterCount<T>(s: seq<T>, keep: T -> bool, x: T)
    ensures multiset(Filter(s, keep))[x] == if keep(x) then multiset(s)[x] else 0
  {
    if s != [] {
      var head := if keep(s[0]) then [s[0]] else [];
      var rest := Filter(s[1..], keep);
      FilterCount(s[1..], keep, x);
      assert Filter(s, keep) == head + rest;
      assert multiset(head + rest) == multiset(head) + multiset(rest);
      SplitFirst(s);
      assert multiset(s) == multiset([s[0]]) + multiset(s[1..]);
    }
  }

  /** A non-empty list is its first element followed by the rest. */
  lemma SplitFirst<T>(s: seq<T>)
    requires s != []
    ensures s == [s[0]] + s[1..]
  {
  }

  /** A non-empty list is its front followed by its last element. */
  lemma SplitLast<T>(s: seq<T>)
    requires s != []
    ensures s == s[..|s| - 1] + [s[|s| - 1]]
  {
  }

  /** A list is its prefix, the element at `k` and its suffix. */
  lemma SplitAt<T>(s: seq<T>, k: nat)
    requires k < |s|
    ensures s == s[..k] + [s[k]] + s[k + 1..]
  {
  }

  /** Filtering a list whose one rejected element sits between two fully kept parts. */
  lemma FilterDropsMiddle<T>(before: seq<T>, x: T, after: seq<T>, keep: T -> bool)
    requires !keep(x)
    requires Filter(before, keep) == before
    requires Filter(after, keep) == after
    ensures Filter(before + [x] + after, keep) == before + after
  {
    FilterNone([x], keep);
    FilterAppend(before, [x], keep);
    assert Filter(before + [x], keep) == before + [];
    assert before + [] == before;
    FilterAppend(before + [x], after, keep);
  }

  lemma FilterKeepsPrefix<T>(s: seq<T>, keep: T -> bool, k: nat)
    requires k < |s|
    requires forall i :: 0 <= i < |s| && i != k ==> keep(s[i])
    ensures Filter(s[..k], keep) == s[..k]
  {
    var before := s[..k];
    forall i | 0 <= i < |before|
      ensures keep(before[i])
    {
      assert before[i] == s[i];
    }
    FilterKeepsAll(before, keep);
  }

  lemma FilterKeepsSuffix<T>(s: seq<T>, keep: T -> bool, k: nat)
    requires k < |s|
    requires forall i :: 0 <= i < |s| && i != k ==> keep(s[i])
    ensures Filter(s[k + 1..], keep) == s[k + 1..]
  {
    var after := s[k + 1..];
    forall i | 0 <= i < |after|
      ensures keep(after[i])
    {
      assert after[i] == s[k + 1 + i];
    }
    FilterKeepsAll(after, keep);
  }

  /** An element is kept exactly when it is in the list and satisfies the predicate. */
  lemma FilterMember<T>(s: seq<T>, keep: T -> bool, x: T)
    ensures x in Filter(s, keep) <==> x in s && keep(x)
  {
    if x in s && keep(x) {
      var k :| 0 <= k < |s| && s[k] == x;
      assert keep(s[k]);
    }
  }

  /** Filtering out exactly the element at `k` removes that position and nothing else. */
  lemma FilterDropsOne<T>(s: seq<T>, keep: T -> bool, k: nat)
    requires k < |s| && !keep(s[k])
    requires forall i :: 0 <= i < |s| && i != k ==> keep(s[i])
    ensures Filter(s, keep) == s[..k] + s[k + 1..]
  {
    FilterKeepsPrefix(s, keep, k);
    FilterKeepsSuffix(s, keep, k);
    FilterDropsMiddle(s[..k], s[k], s[k + 1..], keep);
    SplitAt(s, k);
  }

  /** No two elements of `s` share a `key`. */
  predicate DistinctBy<T, K(==)>(s: seq<T>, key: T -> K) {
    forall i, j :: 0 <= i < j < |s| ==> key(s[i]) != key(s[j])
  }

  /** Keeping some elements of a list whose keys are distinct keeps them distinct. */
  lemma {:induction false} FilterDistinctBy<T, K>(s: seq<T>, keep: T -> bool, key: T -> K)
    requires DistinctBy(s, key)
    ensures DistinctBy(Filter(s, keep), key)
  {
    if s != [] {
      var rest := Filter(s[1..], keep);
      assert DistinctBy(s[1..], key) by {
        assert forall i :: 0 <= i < |s| - 1 ==> s[1..][i] == s[i + 1];
      }
      FilterDistinctBy(s[1..], keep, key);
      if keep(s[0]) {
        forall j | 0 <= j < |rest|
          ensures key(s[0]) != key(rest[j])
        {
          var k :| 0 <= k < |s[1..]| && s[1..][k] == rest[j];
          assert s[k + 1] == rest[j];
        }
        assert Filter(s, keep) == [s[0]] + rest;
      }
    }
  }

  /** Appending an element whose key no element has keeps the keys distinct. */
  lemma DistinctByAppend<T, K>(s: seq<T>, x: T, key: T -> K)
    requires DistinctBy(s, key)
    requires forall i :: 0 <= i < |s| ==> key(s[i]) != key(x)
    ensures DistinctBy(s + [x], key)
  {
  }

  /** `s.findIndex(p)`, with -1 as `None`. */
  function FindIndex<T>(s: seq<T>, p: T -> bool): (r: Option<nat>)
    ensures r.None? <==> forall i :: 0 <= i < |s| ==> !p(s[i])
    ensures r.Some? ==> r.value < |s| && p(s[r.value]) && forall j :: 0 <= j < r.value ==> !p(s[j])
  {
    if s == [] then None
    else if p(s[0]) then Some(0)
    else
      match FindIndex(s[1..], p)
      case None => None
      case Some(i) => Some(i + 1)
  }

  /** `s.find(p)`: the first element satisfying `p`, if any. */
  function Find<T>(s: seq<T>, p: T -> bool): (r: Option<T>)
    ensures r.None? <==> forall i :: 0 <= i < |s| ==> !p(s[i])
    ensures r.Some? ==> exists i :: 0 <= i < |s| && s[i] == r.value && p(s[i]) && forall j :: 0 <= j < i ==> !p(s[j])
  {
    match FindIndex(s, p)
    case None => None
    case Some(i) => Some(s[i])
  }

  /** `find` returns the first element that satisfies the test. */
  lemma FindFirst<T>(s: seq<T>, p: T -> bool, k: nat)
    requires k < |s| && p(s[k]) && forall j :: 0 <= j < k ==> !p(s[j])
    ensures Find(s, p) == Some(s[k])
  {
  }

  /** `s.some(p)`. */
  predicate Any<T>(s: seq<T>, p: T -> bool) {
    exists i :: 0 <= i < |s| && p(s[i])
  }

  /** `s.map(x => hit(x) ? y : x)`: every element `hit` selects becomes `y`. */
  function ReplaceWhere<T>(s: seq<T>, hit: T -> bool, y: T): seq<T> {
    seq(|s|, i requires 0 <= i < |s| => if hit(s[i]) then y else s[i])
  }

  /** `s.map((x, i) => i === idx ? f(x) : x)`: only the element at `idx` changes; an index
      outside the list changes nothing. */
  function UpdateAt<T>(s: seq<T>, idx: int, f: T -> T): seq<T> {
    seq(|s|, i requires 0 <= i < |s| => if i == idx then f(s[i]) else s[i])
  }

  /** `[...a, ...b]` flattened over a list of lists. */
  function Flatten<T>(ss: seq<seq<T>>): seq<T> {
    if ss == [] then [] else ss[0] + Flatten(ss[1..])
  }

  lemma {:induction false} FlattenAppend<T>(a: seq<seq<T>>, b: seq<seq<T>>)
    ensures Flatten(a + b) == Flatten(a) + Flatten(b)
  {
    if a == [] {
      assert a + b == b;
    } else {
      assert (a + b)[1..] == a[1..] + b;
      FlattenAppend(a[1..], b);
    }
  }

  /** An element is in the flattened list exactly when it is in one of the lists. */
  lemma {:induction false} FlattenMember<T>(ss: seq<seq<T>>, x: T)
    ensures x in Flatten(ss) <==> exists i :: 0 <= i < |ss| && x in ss[i]
  {
    if ss != [] {
      FlattenMember(ss[1..], x);
      if x in Flatten(ss[1..]) {
        var i :| 0 <= i < |ss[1..]| && x in ss[1..][i];
        assert x in ss[i + 1];
      }
      if exists i :: 0 <= i < |ss| && x in ss[i] {
        var i :| 0 <= i < |ss| && x in ss[i];
        if i > 0 {
          assert x in ss[1..][i - 1];
        }
      }
    }
  }
}

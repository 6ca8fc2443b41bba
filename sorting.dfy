/**
 * `Array.prototype.sort` with a comparator, as the registry and the playlist
 * store use it: a stable sort. It is modelled as a stable insertion sort over
 * a relation `before(a, b)` ("`a` may stand before `b`"), which is what a
 * comparator answering `<= 0` amounts to. For a comparator that is a total
 * preorder every stable sort gives the same order, so this one stands for
 * the engine's.
 */
module Sorting {
  /** `a` may stand before `b` and `b` before `c` imply `a` before `c`; any two are comparable. */
  ghost predicate TotalPreorder<T(!new)>(before: (T, T) -> bool) {
    (forall a, b :: before(a, b) || before(b, a)) &&
    (forall a, b, c :: before(a, b) && before(b, c) ==> before(a, c))
  }

  /** Every element may stand before every later one. */
  ghost predicate SortedBy<T>(s: seq<T>, before: (T, T) -> bool) {
    forall i, j :: 0 <= i < j < |s| ==> before(s[i], s[j])
  }

  /** Puts `x` in front of the first element it may stand before. */
  function Insert<T>(x: T, s: seq<T>, before: (T, T) -> bool): (r: seq<T>)
    ensures |r| == |s| + 1
    ensures multiset(r) == multiset(s) + multiset{x}
  {
    if s == [] || before(x, s[0]) then [x] + s
    else
      assert s == [s[0]] + s[1..];
      [s[0]] + Insert(x, s[1..], before)
  }

  /** The stable sort: each element is inserted, from the last to the first, ahead of its equals. */
  function Sort<T>(s: seq<T>, before: (T, T) -> bool): (r: seq<T>)
    ensures |r| == |s|
    ensures multiset(r) == multiset(s)
  {
    if s == [] then []
    else
      assert s == [s[0]] + s[1..];
      Insert(s[0], Sort(s[1..], before), before)
  }

  lemma {:induction false} InsertSorted<T(!new)>(x: T, s: seq<T>, before: (T, T) -> bool)
    requires TotalPreorder(before)
    requires SortedBy(s, before)
    ensures SortedBy(Insert(x, s, before), before)
    decreases |s|
  {
    if s != [] && !before(x, s[0]) {
      var t := s[1..];
      assert SortedBy(t, before);
      InsertSorted(x, t, before);
      var r := Insert(x, s, before);
      var it := Insert(x, t, before);
      assert r == [s[0]] + it;
      assert before(s[0], x);
      forall j | 0 <= j < |it|
        ensures before(s[0], it[j])
      {
        assert it[j] in multiset(it);
        assert it[j] in multiset(t) + multiset{x};
        if it[j] != x {
          assert it[j] in t;
          var k :| 0 <= k < |t| && t[k] == it[j];
          assert before(s[0], s[k + 1]);
        }
      }
    }
  }

  /** The sort leaves its input ordered and a permutation of it. */
  lemma {:induction false} SortSorted<T(!new)>(s: seq<T>, before: (T, T) -> bool)
    requires TotalPreorder(before)
    ensures SortedBy(Sort(s, before), before)
    ensures multiset(Sort(s, before)) == multiset(s)
    ensures |Sort(s, before)| == |s|
  {
    if s != [] {
      SortSorted(s[1..], before);
      InsertSorted(s[0], Sort(s[1..], before), before);
    }
  }

  /** No element occurs twice. */
  ghost predicate Distinct<T>(s: seq<T>) {
    forall i, j :: 0 <= i < j < |s| ==> s[i] != s[j]
  }

  /** A sequence without repeats holds each value at most once. */
  lemma {:induction false} DistinctCountsOne<T>(s: seq<T>, x: T)
    requires Distinct(s)
    ensures multiset(s)[x] <= 1
  {
    if s != [] {
      assert s == [s[0]] + s[1..];
      assert Distinct(s[1..]) by {
        forall i, j | 0 <= i < j < |s[1..]|
          ensures s[1..][i] != s[1..][j]
        {
          assert s[1..][i] == s[i + 1] && s[1..][j] == s[j + 1];
        }
      }
      DistinctCountsOne(s[1..], x);
      if s[0] == x {
        assert x !in s[1..];
      }
    }
  }

  /** A value at two positions is counted at least twice. */
  lemma RepeatCountsTwo<T>(s: seq<T>, i: nat, j: nat)
    requires i < j < |s| && s[i] == s[j]
    ensures multiset(s)[s[i]] >= 2
  {
    assert s == s[..j] + s[j..];
    assert s[i] in s[..j];
    assert s[j..][0] == s[j];
  }

  /** A permutation of a sequence without repeats has none either. */
  lemma PermutationKeepsDistinct<T>(a: seq<T>, b: seq<T>)
    requires multiset(a) == multiset(b) && Distinct(a)
    ensures Distinct(b)
  {
    forall i, j | 0 <= i < j < |b|
      ensures b[i] != b[j]
    {
      if b[i] == b[j] {
        RepeatCountsTwo(b, i, j);
        DistinctCountsOne(a, b[i]);
        assert false;
      }
    }
  }
}

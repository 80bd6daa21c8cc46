/** Sequence helpers shared by the pipeline: the row filter behind pandas'
    boolean-mask selection and `dropna`, and facts about strictly increasing
    date sequences. */
module Seqs {

  /** The elements of `s` that satisfy `p`, in their original order. */
  function Filter<T(!new)>(s: seq<T>, p: T -> bool): (r: seq<T>)
    ensures |r| <= |s|
    ensures forall x :: x in r <==> x in s && p(x)
  {
    if s == [] then []
    else if p(s[0]) then [s[0]] + Filter(s[1..], p)
    else Filter(s[1..], p)
  }

  /** A filter never reorders: any relation that holds between every earlier
      and later element of `s` still holds between those of the result. */
  lemma {:induction false} FilterKeepsOrder<T(!new)>(s: seq<T>, p: T -> bool, before: (T, T) -> bool)
    requires forall i, j :: 0 <= i < j < |s| ==> before(s[i], s[j])
    ensures forall i, j :: 0 <= i < j < |Filter(s, p)| ==> before(Filter(s, p)[i], Filter(s, p)[j])
  {
    if s != [] {
      var rest := Filter(s[1..], p);
      FilterKeepsOrder(s[1..], p, before);
      if p(s[0]) {
        var r := Filter(s, p);
        assert r == [s[0]] + rest;
        forall i, j | 0 <= i < j < |r| ensures before(r[i], r[j]) {
          if i == 0 {
            assert r[j] in s[1..] by { assert r[j] == rest[j - 1]; }
            var k :| 0 <= k < |s[1..]| && s[1..][k] == r[j];
            assert before(s[0], s[k + 1]);
          } else {
            assert r[i] == rest[i - 1] && r[j] == rest[j - 1];
          }
        }
      }
    }
  }

  /** A filter whose predicate holds everywhere keeps the whole sequence. */
  lemma {:induction false} FilterKeepsAll<T(!new)>(s: seq<T>, p: T -> bool)
    requires forall i :: 0 <= i < |s| ==> p(s[i])
    ensures Filter(s, p) == s
  {
    if s != [] {
      FilterKeepsAll(s[1..], p);
      assert [s[0]] + s[1..] == s;
    }
  }

  /** A filter whose predicate holds nowhere keeps nothing. */
  lemma {:induction false} FilterKeepsNone<T(!new)>(s: seq<T>, p: T -> bool)
    requires forall i :: 0 <= i < |s| ==> !p(s[i])
    ensures Filter(s, p) == []
  {
    if s != [] {
      FilterKeepsNone(s[1..], p);
    }
  }

  /** Strictly increasing: no two positions share a value. */
  predicate Increasing(ds: seq<int>)
  {
    forall i, j :: 0 <= i < j < |ds| ==> ds[i] < ds[j]
  }

  /** The distinct values of `ds`. */
  function Elems(ds: seq<int>): set<int>
  {
    set d | d in ds
  }

  /** A strictly increasing sequence has as many distinct values as entries. */
  lemma {:induction false} IncreasingElems(ds: seq<int>)
    requires Increasing(ds)
    ensures |Elems(ds)| == |ds|
  {
    if ds != [] {
      IncreasingElems(ds[1..]);
      assert Elems(ds) == {ds[0]} + Elems(ds[1..]);
      assert ds[0] !in Elems(ds[1..]);
    }
  }

  /** Any sequence has at most as many distinct values as entries. */
  lemma {:induction false} ElemsBound(ds: seq<int>)
    ensures |Elems(ds)| <= |ds|
  {
    if ds != [] {
      ElemsBound(ds[1..]);
      assert Elems(ds) == {ds[0]} + Elems(ds[1..]);
    }
  }

  /** A subset is no larger than its superset. */
  lemma SubsetCard(a: set<int>, b: set<int>)
    requires a <= b
    ensures |a| <= |b|
  {
    assert b == a + (b - a);
  }
}

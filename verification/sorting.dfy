/** Ascending numeric sort (`intervals.sort((a, b) => a - b)`) and the median
    selection the BPM estimator performs on the sorted inter-beat intervals. */
module Sorting {

  predicate Sorted(s: seq<int>)
  {
    forall i, j :: 0 <= i < j < |s| ==> s[i] <= s[j]
  }

  /** Inserts `x` into a sorted sequence at its place. */
  function Insert(x: int, s: seq<int>): (r: seq<int>)
    requires Sorted(s)
    ensures Sorted(r)
    ensures multiset(r) == multiset(s) + multiset{x}
  {
    if |s| == 0 then [x]
    else if x <= s[0] then [x] + s
    else
      var rest := s[1..];
      var tail := Insert(x, rest);
      assert s == [s[0]] + rest;
      assert forall j :: 0 <= j < |rest + [x]| ==> s[0] <= (rest + [x])[j];
      BoundedByMultiset(tail, rest + [x], s[0]);
      SortedCons(s[0], tail);
      [s[0]] + tail
  }

  /** A sorted sequence stays sorted behind a head no larger than its elements. */
  lemma SortedCons(h: int, t: seq<int>)
    requires Sorted(t)
    requires forall k :: 0 <= k < |t| ==> h <= t[k]
    ensures Sorted([h] + t)
  {
    var r := [h] + t;
    forall i, j | 0 <= i < j < |r|
      ensures r[i] <= r[j]
    {
      assert r[j] == t[j - 1];
      if i > 0 {
        assert r[i] == t[i - 1];
      }
    }
  }

  /** Every element of `t` is at least `lo` when `t` is a permutation of such a sequence. */
  lemma BoundedByMultiset(t: seq<int>, u: seq<int>, lo: int)
    requires multiset(t) == multiset(u)
    requires forall j :: 0 <= j < |u| ==> lo <= u[j]
    ensures forall k :: 0 <= k < |t| ==> lo <= t[k]
  {
    forall k | 0 <= k < |t|
      ensures lo <= t[k]
    {
      assert t[k] in multiset(u);
      var j :| 0 <= j < |u| && u[j] == t[k];
    }
  }

  /** Insertion sort: a sorted permutation of its input. */
  function Sort(s: seq<int>): (r: seq<int>)
    ensures Sorted(r)
    ensures multiset(r) == multiset(s)
  {
    if |s| == 0 then []
    else
      assert s == [s[0]] + s[1..];
      Insert(s[0], Sort(s[1..]))
  }

  /** How many elements of `s` satisfy `p`. */
  function CountWhere(s: seq<int>, p: int -> bool): (r: nat)
    ensures r <= |s|
  {
    if |s| == 0 then 0 else CountWhere(s[..|s| - 1], p) + (if p(s[|s| - 1]) then 1 else 0)
  }

  lemma {:induction false} CountWhereAppend(a: seq<int>, b: seq<int>, p: int -> bool)
    ensures CountWhere(a + b, p) == CountWhere(a, p) + CountWhere(b, p)
    decreases |b|
  {
    if |b| > 0 {
      CountWhereAppend(a, b[..|b| - 1], p);
      assert (a + b)[..|a + b| - 1] == a + b[..|b| - 1];
    } else {
      assert a + b == a;
    }
  }

  lemma {:induction false} CountWhereNone(s: seq<int>, p: int -> bool)
    requires forall i :: 0 <= i < |s| ==> !p(s[i])
    ensures CountWhere(s, p) == 0
  {
    if |s| > 0 {
      CountWhereNone(s[..|s| - 1], p);
    }
  }

  /** The count only depends on the multiset of elements, so sorting keeps it. */
  lemma {:induction false} CountWherePermutation(a: seq<int>, b: seq<int>, p: int -> bool)
    requires multiset(a) == multiset(b)
    ensures CountWhere(a, p) == CountWhere(b, p)
    decreases |a|
  {
    if |a| > 0 {
      var x := a[|a| - 1];
      var a' := a[..|a| - 1];
      assert a == a' + [x];
      assert x in multiset(b);
      var i :| 0 <= i < |b| && b[i] == x;
      var b' := b[..i] + b[i + 1..];
      assert b == b[..i] + [x] + b[i + 1..];
      assert multiset(b) == multiset(b[..i]) + multiset{x} + multiset(b[i + 1..]);
      assert multiset(b') == multiset(b[..i]) + multiset(b[i + 1..]);
      assert multiset(b) == multiset(b') + multiset{x};
      assert multiset(a) == multiset(a') + multiset{x};
      assert multiset(a') == multiset(a) - multiset{x};
      assert multiset(b') == multiset(b) - multiset{x};
      CountWherePermutation(a', b', p);
      CountWhereAppend(a', [x], p);
      CountWhereAppend(b[..i], [x], p);
      CountWhereAppend(b[..i] + [x], b[i + 1..], p);
      CountWhereAppend(b[..i], b[i + 1..], p);
    } else {
      assert |b| == |multiset(b)| == 0;
    }
  }

  /** In a sorted sequence, the elements smaller than the one at position `k`
      all sit before it, and the larger ones all after it. */
  lemma RankInSorted(r: seq<int>, k: nat)
    requires Sorted(r) && k < |r|
    ensures CountWhere(r, x => x < r[k]) <= k
    ensures CountWhere(r, x => x > r[k]) <= |r| - 1 - k
  {
    SmallerBefore(r, k);
    LargerAfter(r, k);
  }

  lemma SmallerBefore(r: seq<int>, k: nat)
    requires Sorted(r) && k < |r|
    ensures CountWhere(r, x => x < r[k]) <= k
  {
    var pivot := r[k];
    var before, after := r[..k], r[k..];
    assert r == before + after;
    assert forall j :: 0 <= j < |after| ==> after[j] == r[k + j] && after[j] >= pivot;
    CountWhereAppend(before, after, x => x < pivot);
    CountWhereNone(after, x => x < pivot);
  }

  lemma LargerAfter(r: seq<int>, k: nat)
    requires Sorted(r) && k < |r|
    ensures CountWhere(r, x => x > r[k]) <= |r| - 1 - k
  {
    var pivot := r[k];
    var before, after := r[..k + 1], r[k + 1..];
    assert r == before + after;
    assert forall j :: 0 <= j < |before| ==> before[j] == r[j] && before[j] <= pivot;
    CountWhereAppend(before, after, x => x > pivot);
    CountWhereNone(before, x => x > pivot);
  }

  /** The element at index `floor(k/2)` of the sorted intervals: a member of the
      list with at most half of the list below it and at most half above it, so a
      single outlier cannot move it past its neighbours. */
  function Median(s: seq<int>): (m: int)
    requires |s| > 0
    ensures m in s
    ensures CountWhere(s, x => x < m) <= |s| / 2
    ensures CountWhere(s, x => x > m) <= |s| - 1 - |s| / 2
  {
    var sorted := Sort(s);
    var m := sorted[|s| / 2];
    assert m in multiset(sorted);
    RankInSorted(sorted, |s| / 2);
    CountWherePermutation(sorted, s, x => x < m);
    CountWherePermutation(sorted, s, x => x > m);
    m
  }
}

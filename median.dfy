/**
 * Sorting and the median: `sizes.sort((a, b) => a - b)[Math.floor(n / 2)]`, the
 * middle value for an odd count and the upper of the two middle values for an
 * even one.
 * The in-place sort is proved equal to a functional insertion sort, and the
 * element it yields at index n/2 is characterised as an order statistic of the
 * unsorted list.
 */
module Median {

  predicate Sorted(s: seq<real>)
  {
    forall i, j :: 0 <= i < j < |s| ==> s[i] <= s[j]
  }

  /** Inserts `x` into `s` in front of the first element not smaller than it. */
  function InsertAscending(s: seq<real>, x: real): (r: seq<real>)
    ensures |r| == |s| + 1
    ensures multiset(r) == multiset(s) + multiset{x}
  {
    if s == [] then [x]
    else if x <= s[0] then [x] + s
    else
      assert s == [s[0]] + s[1..];
      [s[0]] + InsertAscending(s[1..], x)
  }

  lemma {:induction false} InsertSorted(s: seq<real>, x: real)
    requires Sorted(s)
    ensures Sorted(InsertAscending(s, x))
  {
    if s != [] && x > s[0] {
      InsertSorted(s[1..], x);
      var rest := InsertAscending(s[1..], x);
      forall k | 0 <= k < |rest|
        ensures s[0] <= rest[k]
      {
        assert rest[k] in multiset(s[1..]) + multiset{x};
        if rest[k] in multiset(s[1..]) {
          var j :| 0 <= j < |s[1..]| && s[1..][j] == rest[k];
          assert s[j + 1] == rest[k];
        }
      }
    }
  }

  /** Reference sort: the list in ascending order. */
  function SortAscending(s: seq<real>): (r: seq<real>)
    ensures multiset(r) == multiset(s)
    ensures |r| == |s|
    ensures Sorted(r)
  {
    if s == [] then []
    else
      assert s == s[..|s| - 1] + [s[|s| - 1]];
      InsertSorted(SortAscending(s[..|s| - 1]), s[|s| - 1]);
      InsertAscending(SortAscending(s[..|s| - 1]), s[|s| - 1])
  }

  /** Two sorted lists with the same elements are equal. */
  lemma {:induction false} SortedUnique(a: seq<real>, b: seq<real>)
    requires Sorted(a) && Sorted(b)
    requires multiset(a) == multiset(b)
    ensures a == b
  {
    assert |a| == |multiset(a)| == |multiset(b)| == |b|;
    if a != [] {
      assert a[0] in multiset(b);
      assert b[0] in multiset(a);
      assert a[0] == b[0];
      assert a == [a[0]] + a[1..];
      assert b == [b[0]] + b[1..];
      assert multiset(a[1..]) == multiset(a) - multiset{a[0]};
      assert multiset(b[1..]) == multiset(b) - multiset{b[0]};
      SortedUnique(a[1..], b[1..]);
    }
  }

  /**
   * In-place insertion sort of the collected sizes; the result is the
   * reference sort of the original contents.
   */
  method SortInPlace(a: array<real>)
    modifies a
    ensures a[..] == SortAscending(old(a[..]))
  {
    var i := 0;
    while i < a.Length
      invariant 0 <= i <= a.Length
      invariant forall k, l :: 0 <= k < l < i ==> a[k] <= a[l]
      invariant multiset(a[..]) == multiset(old(a[..]))
    {
      SiftDown(a, i);
      i := i + 1;
    }
    assert Sorted(a[..]);
    SortedUnique(a[..], SortAscending(old(a[..])));
  }

  /** Moves `a[i]` left past every larger element of the sorted prefix `a[..i]`. */
  method SiftDown(a: array<real>, i: int)
    requires 0 <= i < a.Length
    requires forall k, l :: 0 <= k < l < i ==> a[k] <= a[l]
    modifies a
    ensures forall k, l :: 0 <= k < l <= i ==> a[k] <= a[l]
    ensures multiset(a[..]) == multiset(old(a[..]))
    ensures a[i + 1..] == old(a[i + 1..])
  {
    var j := i;
    while j > 0 && a[j - 1] > a[j]
      invariant 0 <= j <= i
      invariant forall k, l :: 0 <= k < l <= i && k != j && l != j ==> a[k] <= a[l]
      invariant forall l :: j < l <= i ==> a[j] < a[l]
      invariant multiset(a[..]) == multiset(old(a[..]))
      invariant a[i + 1..] == old(a[i + 1..])
    {
      Swap(a, j - 1, j);
      j := j - 1;
    }
  }

  method Swap(a: array<real>, i: int, j: int)
    requires 0 <= i < j < a.Length
    modifies a
    ensures a[..] == old(a[..])[i := old(a[j])][j := old(a[i])]
    ensures multiset(a[..]) == multiset(old(a[..]))
  {
    a[i], a[j] := a[j], a[i];
  }

  /** Number of elements of `s` below `v` (strictly, or also equal to it). */
  function CountBelow(s: seq<real>, v: real, orEqual: bool): nat
  {
    if s == [] then 0
    else (if s[0] < v || (orEqual && s[0] == v) then 1 else 0) + CountBelow(s[1..], v, orEqual)
  }

  /**
   * `m` is the upper median of `s` (the middle value when |s| is odd, the upper
   * of the two middle values when it is even): one of its elements, with at most
   * floor(n/2) elements strictly below it and more than floor(n/2) elements
   * at or below it.
   */
  predicate IsUpperMedian(s: seq<real>, m: real)
  {
    m in s && CountBelow(s, m, false) <= |s| / 2 < CountBelow(s, m, true)
  }

  /** The element at index floor(n/2) of the ascending sort. */
  function UpperMedian(s: seq<real>): (m: real)
    requires |s| > 0
    ensures m in s
  {
    var t := SortAscending(s);
    assert t[|s| / 2] in multiset(t);
    t[|s| / 2]
  }

  lemma {:induction false} CountBelowSnoc(s: seq<real>, x: real, v: real, orEqual: bool)
    ensures CountBelow(s + [x], v, orEqual) == CountBelow(s, v, orEqual) + CountBelow([x], v, orEqual)
  {
    if s != [] {
      assert (s + [x])[1..] == s[1..] + [x];
      CountBelowSnoc(s[1..], x, v, orEqual);
    }
  }

  lemma {:induction false} CountBelowInsert(s: seq<real>, x: real, v: real, orEqual: bool)
    ensures CountBelow(InsertAscending(s, x), v, orEqual) == CountBelow(s, v, orEqual) + CountBelow([x], v, orEqual)
  {
    if s != [] && x > s[0] {
      CountBelowInsert(s[1..], x, v, orEqual);
    }
  }

  /** Sorting does not change how many elements lie below a value. */
  lemma {:induction false} CountBelowSort(s: seq<real>, v: real, orEqual: bool)
    ensures CountBelow(SortAscending(s), v, orEqual) == CountBelow(s, v, orEqual)
  {
    if s != [] {
      var p, x := s[..|s| - 1], s[|s| - 1];
      CountBelowSort(p, v, orEqual);
      CountBelowInsert(SortAscending(p), x, v, orEqual);
      assert s == p + [x];
      CountBelowSnoc(p, x, v, orEqual);
    }
  }

  lemma {:induction false} CountBelowNone(s: seq<real>, v: real)
    requires forall i :: 0 <= i < |s| ==> v <= s[i]
    ensures CountBelow(s, v, false) == 0
  {
    if s != [] {
      CountBelowNone(s[1..], v);
    }
  }

  /** In a sorted list, at most k elements are strictly below the k-th one. */
  lemma {:induction false} SortedStrictRank(t: seq<real>, k: nat)
    requires Sorted(t) && k < |t|
    ensures CountBelow(t, t[k], false) <= k
  {
    if k == 0 {
      CountBelowNone(t, t[0]);
    } else {
      assert t[1..][k - 1] == t[k];
      SortedStrictRank(t[1..], k - 1);
    }
  }

  /** In a sorted list, at least k+1 elements are at or below the k-th one. */
  lemma {:induction false} SortedInclusiveRank(t: seq<real>, k: nat)
    requires Sorted(t) && k < |t|
    ensures CountBelow(t, t[k], true) >= k + 1
  {
    if k > 0 {
      assert t[1..][k - 1] == t[k];
      SortedInclusiveRank(t[1..], k - 1);
    }
  }

  /** The sorted-index median is the upper median of the unsorted list. */
  lemma MedianIsUpperMedian(s: seq<real>)
    requires |s| > 0
    ensures IsUpperMedian(s, UpperMedian(s))
  {
    var t := SortAscending(s);
    var m := t[|s| / 2];
    assert m in multiset(t);
    SortedStrictRank(t, |s| / 2);
    SortedInclusiveRank(t, |s| / 2);
    CountBelowSort(s, m, false);
    CountBelowSort(s, m, true);
  }

  lemma {:induction false} CountBelowMonotone(s: seq<real>, v: real, w: real)
    requires v < w
    ensures CountBelow(s, v, true) <= CountBelow(s, w, false)
  {
    if s != [] {
      CountBelowMonotone(s[1..], v, w);
    }
  }

  /** The upper-median characterisation determines the value uniquely. */
  lemma UpperMedianUnique(s: seq<real>, m1: real, m2: real)
    requires IsUpperMedian(s, m1) && IsUpperMedian(s, m2)
    ensures m1 == m2
  {
    if m1 < m2 {
      CountBelowMonotone(s, m1, m2);
    } else if m2 < m1 {
      CountBelowMonotone(s, m2, m1);
    }
  }

  /** With an even count the sorted index n/2 picks the upper of the two middle values. */
  lemma EvenCountTakesUpperMiddle()
    ensures UpperMedian([4.0, 1.0, 3.0, 2.0]) == 3.0
    ensures !IsUpperMedian([4.0, 1.0, 3.0, 2.0], 2.0)
  {
    var s := [4.0, 1.0, 3.0, 2.0];
    assert s[1..] == [1.0, 3.0, 2.0] && s[1..][1..] == [3.0, 2.0] && s[1..][1..][1..] == [2.0];
    assert s[1..][1..][1..][1..] == [];
    assert IsUpperMedian(s, 3.0);
    MedianIsUpperMedian(s);
    UpperMedianUnique(s, UpperMedian(s), 3.0);
  }
}

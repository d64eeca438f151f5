/** Sums, means, rounding and occurrence counts used by the profile builder. */
module Stats {

  /** Left-to-right sum, the value of `xs.reduce((a, b) => a + b, 0)`. */
  function Sum(s: seq<real>): real
  {
    if s == [] then 0.0 else Sum(s[..|s| - 1]) + s[|s| - 1]
  }

  /** Integer sum, the running accumulator of the horizon loop. */
  function IntSum(s: seq<int>): int
  {
    if s == [] then 0 else IntSum(s[..|s| - 1]) + s[|s| - 1]
  }

  /** Arithmetic mean with the neutral value 0 for the empty list. */
  function Mean(s: seq<real>): real
  {
    if |s| == 0 then 0.0 else Sum(s) / (|s| as real)
  }

  /** JavaScript `Math.round`: halves round towards positive infinity. */
  function Round(x: real): (r: int)
    ensures x - 0.5 < r as real <= x + 0.5
  {
    (x + 0.5).Floor
  }

  function Abs(x: real): real { if x < 0.0 then -x else x }
  function AbsInt(x: int): int { if x < 0 then -x else x }

  function Max(a: int, b: int): int { if a < b then b else a }

  lemma {:induction false} SumBounds(s: seq<real>, lo: real, hi: real)
    requires forall i :: 0 <= i < |s| ==> lo <= s[i] <= hi
    ensures lo * (|s| as real) <= Sum(s) <= hi * (|s| as real)
  {
    if s != [] {
      SumBounds(s[..|s| - 1], lo, hi);
      assert (|s| as real) == (|s| - 1) as real + 1.0;
    }
  }

  /** The mean of a non-empty list lies between any bounds of its elements. */
  lemma MeanBounds(s: seq<real>, lo: real, hi: real)
    requires |s| > 0
    requires forall i :: 0 <= i < |s| ==> lo <= s[i] <= hi
    ensures lo <= Mean(s) <= hi
  {
    SumBounds(s, lo, hi);
    var n := |s| as real;
    var m := Sum(s) / n;
    assert Sum(s) == m * n;
    assert (m - lo) * n >= 0.0 && (hi - m) * n >= 0.0;
  }

  lemma {:induction false} SumNonNegative(s: seq<real>)
    requires forall i :: 0 <= i < |s| ==> s[i] >= 0.0
    ensures Sum(s) >= 0.0
  {
    if s != [] {
      SumNonNegative(s[..|s| - 1]);
    }
  }

  /** The mean of non-negative values is non-negative (0 for the empty list). */
  lemma MeanNonNegative(s: seq<real>)
    requires forall i :: 0 <= i < |s| ==> s[i] >= 0.0
    ensures Mean(s) >= 0.0
  {
    SumNonNegative(s);
  }

  lemma {:induction false} SumPositive(s: seq<real>)
    requires |s| > 0
    requires forall i :: 0 <= i < |s| ==> s[i] > 0.0
    ensures Sum(s) > 0.0
  {
    if |s| > 1 {
      SumPositive(s[..|s| - 1]);
    }
  }

  lemma MeanPositive(s: seq<real>)
    requires |s| > 0
    requires forall i :: 0 <= i < |s| ==> s[i] > 0.0
    ensures Mean(s) > 0.0
  {
    SumPositive(s);
    var n := |s| as real;
    var m := Sum(s) / n;
    assert Sum(s) == m * n;
  }

  /** The rounded mean of integers that are all at least 1 is at least 1. */
  lemma {:induction false} IntSumAtLeastLength(s: seq<int>)
    requires forall i :: 0 <= i < |s| ==> s[i] >= 1
    ensures IntSum(s) >= |s|
  {
    if s != [] {
      IntSumAtLeastLength(s[..|s| - 1]);
    }
  }

  /** A total at least as large as the (positive) count gives a mean of at least 1. */
  lemma RatioAtLeastOne(total: int, n: int)
    requires 1 <= n <= total
    ensures total as real / n as real >= 1.0
  {
    var q := total as real / n as real;
    assert q * n as real == total as real;
    assert (q - 1.0) * n as real >= 0.0;
  }

  /** Number of occurrences of `x` in `s`. */
  function Count<T(==)>(s: seq<T>, x: T): nat
  {
    if s == [] then 0 else Count(s[..|s| - 1], x) + (if s[|s| - 1] == x then 1 else 0)
  }

  lemma {:induction false} CountAppend<T>(s: seq<T>, t: seq<T>, x: T)
    ensures Count(s + t, x) == Count(s, x) + Count(t, x)
  {
    if t != [] {
      assert (s + t)[..|s + t| - 1] == s + t[..|t| - 1];
      CountAppend(s, t[..|t| - 1], x);
    } else {
      assert s + t == s;
    }
  }

  /** An element occurs at least once exactly when it is in the list. */
  lemma {:induction false} CountPositiveIffIn<T>(s: seq<T>, x: T)
    ensures Count(s, x) > 0 <==> x in s
  {
    if s != [] {
      var p := s[..|s| - 1];
      CountPositiveIffIn(p, x);
      assert s == p + [s[|s| - 1]];
      assert x in s <==> x in p || x == s[|s| - 1];
    }
  }

  /** Frequency map of a list: each element seen, with its number of occurrences. */
  function Tally<T(==)>(s: seq<T>): (m: map<T, nat>)
    ensures m.Keys == set x | x in s
  {
    map x | x in s :: Count(s, x)
  }

  /** Appending one element bumps its count, or adds it with count 1. */
  lemma TallySnoc<T>(s: seq<T>, x: T)
    ensures Tally(s + [x]) == Tally(s)[x := (if x in Tally(s) then Tally(s)[x] else 0) + 1]
  {
    var s' := s + [x];
    assert s'[..|s'| - 1] == s;
    if x !in s {
      CountPositiveIffIn(s, x);
    }
    var a := Tally(s');
    var b := Tally(s)[x := (if x in Tally(s) then Tally(s)[x] else 0) + 1];
    assert a.Keys == b.Keys;
    forall y | y in a.Keys
      ensures a[y] == b[y]
    {
    }
  }
}

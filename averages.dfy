/**
 * Exact arithmetic behind the overall-performance score: the sum and mean of
 * a list of scores, its minimum, and rounding to the nearest tenth the way
 * `Math.round(x * 10) / 10` does (halves round up).
 */
module Averages {

  /** The sum of a list, the same whichever end it is added from. */
  function Sum(s: seq<real>): real
  {
    if s == [] then 0.0 else s[0] + Sum(s[1..])
  }

  /** `reduce((a, b) => a + b, 0)`: the running total, added from the left. */
  function Reduce(s: seq<real>): (total: real)
    ensures total == Sum(s)
  {
    if s == [] then 0.0
    else
      SumLast(s);
      Reduce(s[..|s| - 1]) + s[|s| - 1]
  }

  /** Splitting off the last element of the sum. */
  lemma {:induction false} SumLast(s: seq<real>)
    requires s != []
    ensures Sum(s) == Sum(s[..|s| - 1]) + s[|s| - 1]
  {
    if |s| > 1 {
      SumLast(s[1..]);
      assert s[1..][..|s| - 2] == s[..|s| - 1][1..];
    }
  }

  /** The arithmetic mean of a non-empty list: the share each element would have of the sum. */
  function Mean(s: seq<real>): (m: real)
    requires |s| > 0
    ensures m * |s| as real == Reduce(s)
  {
    Sum(s) / |s| as real
  }

  /** The smallest element of a non-empty list. */
  function Min(s: seq<real>): (m: real)
    requires |s| > 0
    ensures m in s
    ensures forall i :: 0 <= i < |s| ==> m <= s[i]
  {
    if |s| == 1 then s[0]
    else
      var rest := Min(s[1..]);
      if s[0] <= rest then s[0] else rest
  }

  /** True when `x` is a whole number of tenths. */
  predicate IsTenths(x: real)
  {
    (x * 10.0).Floor as real == x * 10.0
  }

  /**
   * `Math.round(x * 10) / 10`: the nearest multiple of 0.1, halves going up.
   * The result is a whole number of tenths within 0.05 of `x`.
   */
  function RoundTenth(x: real): (r: real)
    ensures IsTenths(r)
    ensures x - 0.05 < r <= x + 0.05
  {
    (x * 10.0 + 0.5).Floor as real / 10.0
  }

  /** The tenth `RoundTenth` picks is the only one in the half-open window around `x`. */
  lemma RoundTenthUnique(x: real, r: real)
    requires IsTenths(r) && x - 0.05 < r <= x + 0.05
    ensures r == RoundTenth(x)
  {
    var k := (r * 10.0).Floor;
    var j := (x * 10.0 + 0.5).Floor;
    assert k as real == r * 10.0;
    assert x * 10.0 - 0.5 < k as real <= x * 10.0 + 0.5;
    assert j as real <= x * 10.0 + 0.5 < j as real + 1.0;
    assert k == j;
  }

  lemma RoundTenthMonotone(x: real, y: real)
    requires x <= y
    ensures RoundTenth(x) <= RoundTenth(y)
  {
    assert (x * 10.0 + 0.5).Floor <= (y * 10.0 + 0.5).Floor;
  }

  /** A number that already is a whole number of tenths is left alone. */
  lemma RoundTenthFixes(x: real)
    requires IsTenths(x)
    ensures RoundTenth(x) == x
  {
    RoundTenthUnique(x, x);
  }

  /** Removing one element from the sum. */
  lemma {:induction false} SumRemove(s: seq<real>, i: nat)
    requires i < |s|
    ensures Sum(s) == s[i] + Sum(s[..i] + s[i + 1..])
  {
    if i == 0 {
      assert s[..0] + s[1..] == s[1..];
    } else {
      SumRemove(s[1..], i - 1);
      assert s[..i] + s[i + 1..] == [s[0]] + (s[1..][..i - 1] + s[1..][i..]);
    }
  }

  /** The sum, and so the mean, ignores the order of the list. */
  lemma {:induction false} SumPermutation(a: seq<real>, b: seq<real>)
    requires multiset(a) == multiset(b)
    ensures Sum(a) == Sum(b)
  {
    if a != [] {
      assert a[0] in multiset(b);
      var i :| 0 <= i < |b| && b[i] == a[0];
      SumRemove(b, i);
      var rest := b[..i] + b[i + 1..];
      assert a == [a[0]] + a[1..];
      assert b == b[..i] + [b[i]] + b[i + 1..];
      calc {
        multiset(a[1..]);
        multiset(a) - multiset{a[0]};
        multiset(b) - multiset{b[i]};
        multiset(b[..i]) + multiset(b[i + 1..]);
        multiset(rest);
      }
      SumPermutation(a[1..], rest);
    }
  }

  lemma MeanPermutation(a: seq<real>, b: seq<real>)
    requires |a| > 0 && multiset(a) == multiset(b)
    ensures |b| > 0 && Mean(a) == Mean(b)
  {
    assert |a| == |multiset(a)| == |multiset(b)| == |b|;
    SumPermutation(a, b);
  }

  /** Every element at most `hi` bounds the sum by `|s| * hi`. */
  lemma {:induction false} SumAtMost(s: seq<real>, hi: real)
    requires forall i :: 0 <= i < |s| ==> s[i] <= hi
    ensures Sum(s) <= |s| as real * hi
  {
    if s != [] {
      SumAtMost(s[1..], hi);
    }
  }

  /** Every element at least `lo` bounds the sum by `|s| * lo`. */
  lemma {:induction false} SumAtLeast(s: seq<real>, lo: real)
    requires forall i :: 0 <= i < |s| ==> lo <= s[i]
    ensures |s| as real * lo <= Sum(s)
  {
    if s != [] {
      SumAtLeast(s[1..], lo);
    }
  }

  /** The mean is at most any upper bound of the elements. */
  lemma MeanAtMost(s: seq<real>, hi: real)
    requires |s| > 0
    requires forall i :: 0 <= i < |s| ==> s[i] <= hi
    ensures Mean(s) <= hi
  {
    SumAtMost(s, hi);
    QuotientBelow(Sum(s), |s| as real, hi);
  }

  /** The mean is at least any lower bound of the elements. */
  lemma MeanAtLeast(s: seq<real>, lo: real)
    requires |s| > 0
    requires forall i :: 0 <= i < |s| ==> lo <= s[i]
    ensures lo <= Mean(s)
  {
    SumAtLeast(s, lo);
    QuotientAbove(Sum(s), |s| as real, lo);
  }

  lemma QuotientBelow(x: real, n: real, c: real)
    requires n > 0.0 && x <= n * c
    ensures x / n <= c
  {
    var q := x / n;
    assert q * n == x;
    if q > c {
      assert q * n > c * n;
    }
  }

  lemma QuotientAbove(x: real, n: real, c: real)
    requires n > 0.0 && n * c <= x
    ensures c <= x / n
  {
    var q := x / n;
    assert q * n == x;
    if q < c {
      assert q * n < c * n;
    }
  }

  /** A mean of positive numbers is positive. */
  lemma MeanPositive(s: seq<real>)
    requires |s| > 0
    requires forall i :: 0 <= i < |s| ==> s[i] > 0.0
    ensures Mean(s) > 0.0
  {
    var lo := Min(s);
    MeanAtLeast(s, lo);
  }
}

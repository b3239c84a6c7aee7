/** Real-number helpers shared by the forecasting engine: sums in the order of
    an accumulator loop or of `reduce((a, b) => a + b, 0)`, means and clipping.
    Numbers are idealised IEEE doubles (exact reals, no rounding, no NaN). */
module Numeric {

  /** The result type of the abstract square root. */
  type NonNegReal = x: real | 0.0 <= x

  /** Sum from left to right, as `reduce((a, b) => a + b, 0)` or `sum += s[i]` computes it. */
  function Sum(s: seq<real>): real
  {
    if s == [] then 0.0 else Sum(s[..|s| - 1]) + s[|s| - 1]
  }

  /** Arithmetic mean: the sum divided by the number of values. */
  function Mean(s: seq<real>): real
    requires |s| > 0
  {
    Sum(s) / |s| as real
  }

  function Max(a: real, b: real): real
  {
    if a >= b then a else b
  }

  function Min(a: real, b: real): real
  {
    if a <= b then a else b
  }

  /** `Math.abs`. */
  function Abs(x: real): real
  {
    if x < 0.0 then -x else x
  }

  /** `Math.max(lo, Math.min(hi, x))`. */
  function Clip(x: real, lo: real, hi: real): (r: real)
    requires lo <= hi
    ensures lo <= r <= hi
    ensures lo <= x <= hi ==> r == x
    ensures x < lo ==> r == lo
    ensures hi < x ==> r == hi
  {
    Max(lo, Min(hi, x))
  }

  lemma SumSnoc(s: seq<real>, x: real)
    ensures Sum(s + [x]) == Sum(s) + x
  {
    assert (s + [x])[..|s|] == s;
  }

  /** The mean times the count gives back the sum. */
  lemma MeanTimesLength(s: seq<real>)
    requires |s| > 0
    ensures |s| as real * Mean(s) == Sum(s)
  {
  }

  /** A value that times the count gives the sum is the mean. */
  lemma MeanFromTotal(s: seq<real>, m: real)
    requires |s| > 0 && m * |s| as real == Sum(s)
    ensures m == Mean(s)
  {
  }

  /** n copies of c add up to n * c. */
  lemma {:induction false} SumConstant(s: seq<real>, c: real)
    requires forall i :: 0 <= i < |s| ==> s[i] == c
    ensures Sum(s) == |s| as real * c
  {
    if s != [] {
      SumConstant(s[..|s| - 1], c);
    }
  }

  /** The mean of a constant sequence is that constant. */
  lemma MeanConstant(s: seq<real>, c: real)
    requires |s| > 0
    requires forall i :: 0 <= i < |s| ==> s[i] == c
    ensures Mean(s) == c
  {
    SumConstant(s, c);
  }

  /** A sum of values within [lo, hi] lies within [n * lo, n * hi]. */
  lemma {:induction false} SumBounds(s: seq<real>, lo: real, hi: real)
    requires forall i :: 0 <= i < |s| ==> lo <= s[i] <= hi
    ensures |s| as real * lo <= Sum(s) <= |s| as real * hi
  {
    if s != [] {
      SumBounds(s[..|s| - 1], lo, hi);
    }
  }

  /** The mean of values within [lo, hi] lies within [lo, hi]. */
  lemma MeanBounds(s: seq<real>, lo: real, hi: real)
    requires |s| > 0
    requires forall i :: 0 <= i < |s| ==> lo <= s[i] <= hi
    ensures lo <= Mean(s) <= hi
  {
    SumBounds(s, lo, hi);
    var n := |s| as real;
    assert n * lo <= Sum(s) <= n * hi;
    assert Sum(s) / n >= lo by {
      assert Sum(s) >= lo * n;
    }
    assert Sum(s) / n <= hi by {
      assert Sum(s) <= hi * n;
    }
  }

  /** Mapping every value v to b + k * (v - a) maps the sum S of n values to
      n * b + k * (S - n * a). */
  lemma {:induction false} SumAffine(s: seq<real>, t: seq<real>, a: real, b: real, k: real)
    requires |t| == |s|
    requires forall i :: 0 <= i < |s| ==> t[i] == b + k * (s[i] - a)
    ensures Sum(t) == |s| as real * b + k * (Sum(s) - |s| as real * a)
  {
    if s != [] {
      var n := |s| - 1;
      SumAffine(s[..n], t[..n], a, b, k);
      assert Sum(t) == Sum(t[..n]) + t[n];
      assert Sum(s) == Sum(s[..n]) + s[n];
    }
  }
}

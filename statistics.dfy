/**
 * The window statistics the detector computes with accumulator loops:
 * left-to-right sums, means, population variances, de-meaning and the
 * per-sample acceleration magnitude.
 */
module Statistics {

  /** The left-to-right sum, in the order the accumulator loops add. */
  function Sum(s: seq<real>): real {
    if |s| == 0 then 0.0 else Sum(s[..|s| - 1]) + s[|s| - 1]
  }

  function Mean(s: seq<real>): real
    requires |s| > 0
  {
    Sum(s) / |s| as real
  }

  /** The left-to-right sum of (s[i] - m)^2. */
  function SquaredDeviation(s: seq<real>, m: real): real {
    if |s| == 0 then 0.0
    else SquaredDeviation(s[..|s| - 1], m) + (s[|s| - 1] - m) * (s[|s| - 1] - m)
  }

  /** The population variance: squared deviations from the mean, divided by the count. */
  function Variance(s: seq<real>): real
    requires |s| > 0
  {
    SquaredDeviation(s, Mean(s)) / |s| as real
  }

  /** Every sample minus the constant c. */
  function Shift(s: seq<real>, c: real): (r: seq<real>)
    ensures |r| == |s|
  {
    seq(|s|, i requires 0 <= i < |s| => s[i] - c)
  }

  /** The window with its mean removed (the DC component). */
  function Demean(s: seq<real>): (r: seq<real>)
    ensures |r| == |s|
  {
    if |s| == 0 then [] else Shift(s, Mean(s))
  }

  /** sqrt(x^2 + y^2 + z^2) */
  function Magnitude(x: real, y: real, z: real, sqrt: real -> real): real {
    sqrt(x * x + y * y + z * z)
  }

  /** The acceleration magnitude of every sample of a three-axis window. */
  function MagnitudeSeries(x: seq<real>, y: seq<real>, z: seq<real>, sqrt: real -> real): (r: seq<real>)
    requires |x| == |y| == |z|
    ensures |r| == |x|
  {
    seq(|x|, i requires 0 <= i < |x| => Magnitude(x[i], y[i], z[i], sqrt))
  }

  /** The variance of the magnitude series of three axes, as calculateVariance returns it. */
  function CombinedVariance(x: seq<real>, y: seq<real>, z: seq<real>, sqrt: real -> real): real
    requires |x| == |y| == |z| > 0
  {
    Variance(MagnitudeSeries(x, y, z, sqrt))
  }

  predicate Constant(s: seq<real>, c: real) {
    forall i :: 0 <= i < |s| ==> s[i] == c
  }

  // ---------------------------------------------------------------------
  // Facts the loops and the detector rely on
  // ---------------------------------------------------------------------

  /** One more sample extends the running sum of a slice. */
  lemma SumExtend(s: seq<real>, lo: int, hi: int)
    requires 0 <= lo <= hi < |s|
    ensures Sum(s[lo..hi + 1]) == Sum(s[lo..hi]) + s[hi]
  {
    assert s[lo..hi + 1][..hi - lo] == s[lo..hi];
  }

  /** One more sample extends the running sum of squared deviations of a slice. */
  lemma SquaredDeviationExtend(s: seq<real>, m: real, lo: int, hi: int)
    requires 0 <= lo <= hi < |s|
    ensures SquaredDeviation(s[lo..hi + 1], m) == SquaredDeviation(s[lo..hi], m) + (s[hi] - m) * (s[hi] - m)
  {
    assert s[lo..hi + 1][..hi - lo] == s[lo..hi];
  }

  lemma {:induction false} SquaredDeviationNonNegative(s: seq<real>, m: real)
    ensures SquaredDeviation(s, m) >= 0.0
  {
    if |s| > 0 {
      SquaredDeviationNonNegative(s[..|s| - 1], m);
      var d := s[|s| - 1] - m;
      assert d * d >= 0.0;
    }
  }

  /** Variances are never negative. */
  lemma VarianceNonNegative(s: seq<real>)
    requires |s| > 0
    ensures Variance(s) >= 0.0
  {
    SquaredDeviationNonNegative(s, Mean(s));
  }

  /** Shifting every sample by c shifts the sum by |s| * c. */
  lemma {:induction false} SumOfShift(s: seq<real>, c: real)
    ensures Sum(Shift(s, c)) == Sum(s) - |s| as real * c
  {
    if |s| > 0 {
      var n := |s|;
      assert Shift(s, c)[..n - 1] == Shift(s[..n - 1], c);
      SumOfShift(s[..n - 1], c);
      assert n as real * c == (n - 1) as real * c + c;
    }
  }

  /** The de-meaned window sums to zero. */
  lemma DemeanSumsToZero(s: seq<real>)
    ensures Sum(Demean(s)) == 0.0
  {
    if |s| > 0 {
      SumOfShift(s, Mean(s));
      assert |s| as real * (Sum(s) / |s| as real) == Sum(s);
    }
  }

  lemma {:induction false} SumOfConstant(s: seq<real>, c: real)
    requires Constant(s, c)
    ensures Sum(s) == |s| as real * c
  {
    if |s| > 0 {
      var n := |s|;
      SumOfConstant(s[..n - 1], c);
      assert n as real * c == (n - 1) as real * c + c;
    }
  }

  lemma {:induction false} SquaredDeviationOfConstant(s: seq<real>, c: real)
    requires Constant(s, c)
    ensures SquaredDeviation(s, c) == 0.0
  {
    if |s| > 0 {
      SquaredDeviationOfConstant(s[..|s| - 1], c);
    }
  }

  /** A constant window has that constant as its mean and no variance. */
  lemma ConstantStatistics(s: seq<real>, c: real)
    requires |s| > 0 && Constant(s, c)
    ensures Mean(s) == c && Variance(s) == 0.0
  {
    SumOfConstant(s, c);
    SquaredDeviationOfConstant(s, c);
  }

  /** Removing the mean of a constant window leaves all zeros. */
  lemma DemeanOfConstant(s: seq<real>, c: real)
    requires Constant(s, c)
    ensures Constant(Demean(s), 0.0)
  {
    if |s| > 0 {
      ConstantStatistics(s, c);
    }
  }

  /** Three constant axes give a constant magnitude series. */
  lemma MagnitudeOfConstant(x: seq<real>, y: seq<real>, z: seq<real>, cx: real, cy: real, cz: real, sqrt: real -> real)
    requires |x| == |y| == |z|
    requires Constant(x, cx) && Constant(y, cy) && Constant(z, cz)
    ensures Constant(MagnitudeSeries(x, y, z, sqrt), Magnitude(cx, cy, cz, sqrt))
  {
  }
}

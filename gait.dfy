/**
 * Step counting: an adaptive threshold (mean plus half a standard
 * deviation of the magnitude series) and a rising-edge, local-maximum scan.
 */
module Gait {
  import opened Numerics
  import opened Statistics

  /** The length of the analysis window in seconds that cadence divides by. */
  const WindowSeconds: real := 3.0

  function Threshold(mag: seq<real>, sqrt: real -> real): real
    requires |mag| > 0
  {
    Mean(mag) + sqrt(Variance(mag)) * 0.5
  }

  /**
   * A step is counted at i when the sample is an interior strict local
   * maximum above the threshold and the previous sample was not above it
   * (for i == 1 there is no earlier comparison: the flag starts false).
   */
  predicate StepAt(mag: seq<real>, threshold: real, i: int) {
    && 1 <= i <= |mag| - 2
    && mag[i] > threshold
    && (i == 1 || mag[i - 1] <= threshold)
    && mag[i] > mag[i - 1]
    && mag[i] > mag[i + 1]
  }

  /** The steps counted at indices 1 .. k-1. */
  function StepsBefore(mag: seq<real>, threshold: real, k: nat): nat {
    if k <= 1 then 0
    else StepsBefore(mag, threshold, k - 1) + (if StepAt(mag, threshold, k - 1) then 1 else 0)
  }

  /** The steps in a window: the scan visits 1 .. |mag|-2. */
  function StepCount(mag: seq<real>, threshold: real): nat {
    if |mag| < 3 then 0 else StepsBefore(mag, threshold, |mag| - 1)
  }

  /** Steps per second over the fixed window length. */
  function Cadence(steps: nat): real {
    steps as real / WindowSeconds
  }

  /** The cadence analyzeGait leaves for a window of acceleration magnitudes. */
  function WindowCadence(mag: seq<real>, sqrt: real -> real): real
    requires |mag| > 0
  {
    Cadence(StepCount(mag, Threshold(mag, sqrt)))
  }

  // ---------------------------------------------------------------------
  // Properties
  // ---------------------------------------------------------------------

  /** The count is exactly the number of indices that satisfy StepAt. */
  lemma {:induction false} StepsBeforeIsCardinality(mag: seq<real>, threshold: real, k: nat)
    ensures StepsBefore(mag, threshold, k) == |set i | 1 <= i < k && StepAt(mag, threshold, i)|
  {
    var steps := set i | 1 <= i < k && StepAt(mag, threshold, i);
    if k <= 1 {
      assert steps == {};
    } else {
      StepsBeforeIsCardinality(mag, threshold, k - 1);
      var earlier := set i | 1 <= i < k - 1 && StepAt(mag, threshold, i);
      if StepAt(mag, threshold, k - 1) {
        assert steps == earlier + {k - 1};
      } else {
        assert steps == earlier;
      }
    }
  }

  /** Two adjacent indices are never both steps. */
  lemma NoAdjacentSteps(mag: seq<real>, threshold: real, i: int)
    requires StepAt(mag, threshold, i + 1)
    ensures !StepAt(mag, threshold, i)
  {
    assert mag[i + 1] > mag[i];
  }

  lemma {:induction false} StepsBeforeBound(mag: seq<real>, threshold: real, k: nat)
    requires k >= 1
    ensures StepsBefore(mag, threshold, k) <= k / 2
  {
    if k > 2 {
      if StepAt(mag, threshold, k - 1) {
        NoAdjacentSteps(mag, threshold, k - 2);
        StepsBeforeBound(mag, threshold, k - 2);
        assert StepsBefore(mag, threshold, k - 1) == StepsBefore(mag, threshold, k - 2);
      } else {
        StepsBeforeBound(mag, threshold, k - 1);
      }
    }
  }

  /** At most one step in every two interior samples; none in a window shorter than 3. */
  lemma StepCountBound(mag: seq<real>, threshold: real)
    ensures |mag| > 0 ==> StepCount(mag, threshold) <= (|mag| - 1) / 2
    ensures |mag| < 3 ==> StepCount(mag, threshold) == 0
  {
    if |mag| >= 3 {
      StepsBeforeBound(mag, threshold, |mag| - 1);
    }
  }

  lemma {:induction false} NoStepsWhenFlat(mag: seq<real>, threshold: real, c: real, k: nat)
    requires Constant(mag, c)
    ensures StepsBefore(mag, threshold, k) == 0
  {
    if k > 1 {
      NoStepsWhenFlat(mag, threshold, c, k - 1);
      assert !StepAt(mag, threshold, k - 1);
    }
  }

  /**
   * A constant magnitude series has no spread, so its threshold is the
   * constant itself; no sample exceeds it and no step is counted.
   */
  lemma ConstantWindowHasNoSteps(mag: seq<real>, c: real, sqrt: real -> real)
    requires |mag| > 0 && Constant(mag, c) && SqrtOfZero(sqrt)
    ensures Threshold(mag, sqrt) == c
    ensures forall i :: 0 <= i < |mag| ==> !(mag[i] > Threshold(mag, sqrt))
    ensures StepCount(mag, Threshold(mag, sqrt)) == 0 && WindowCadence(mag, sqrt) == 0.0
  {
    ConstantStatistics(mag, c);
    NoStepsWhenFlat(mag, Threshold(mag, sqrt), c, |mag| - 1);
  }

  /** Half a (non-negative) standard deviation puts the threshold at or above the mean. */
  lemma ThresholdAtLeastMean(mag: seq<real>, sqrt: real -> real)
    requires |mag| > 0 && SqrtNonNegative(sqrt)
    ensures Threshold(mag, sqrt) >= Mean(mag)
  {
    assert sqrt(Variance(mag)) >= 0.0;
  }

  /** Cadence is between 0 and a sixth of the interior sample count per second. */
  lemma WindowCadenceBound(mag: seq<real>, sqrt: real -> real)
    requires |mag| > 0
    ensures 0.0 <= WindowCadence(mag, sqrt) <= ((|mag| - 1) / 2) as real / WindowSeconds
  {
    StepCountBound(mag, Threshold(mag, sqrt));
  }
}

/**
 * SymptomDetector: the per-window analysis, as the loops of the detector
 * compute it, each method proved against the pure definitions of the
 * Statistics, Bands, Gait and Symptoms modules.
 */
module Detector {
  import opened Numerics
  import opened Statistics
  import opened Spectral
  import opened Bands
  import opened Gait
  import opened Symptoms

  class SymptomDetector {
    var lastStepTime: real
    var stepCount: int
    /** Steps per second of the most recent window; analyze rewrites it before reading it. */
    var cadence: real

    constructor ()
      ensures lastStepTime == 0.0 && stepCount == 0 && cadence == 0.0
    {
      lastStepTime := 0.0;
      stepCount := 0;
      cadence := 0.0;
    }

    method Begin()
      modifies this
      ensures lastStepTime == 0.0 && stepCount == 0 && cadence == 0.0
    {
      lastStepTime := 0.0;
      stepCount := 0;
      cadence := 0.0;
    }

    /**
     * Analyses one window of windowSize samples per axis: removes the mean
     * of each acceleration axis, scores the tremor, dyskinesia and
     * background bands, counts steps into cadence, and classifies freezing.
     */
    method Analyze(ax: seq<real>, ay: seq<real>, az: seq<real>,
                   gx: seq<real>, gy: seq<real>, gz: seq<real>,
                   windowSize: int, ops: MathOps) returns (results: SymptomResults)
      requires 3 <= windowSize
      requires windowSize <= |ax| && windowSize <= |ay| && windowSize <= |az|
      requires windowSize <= |gx| && windowSize <= |gy| && windowSize <= |gz|
      modifies this`cadence
      ensures results == Verdicts(ax[..windowSize], ay[..windowSize], az[..windowSize],
                                  gx[..windowSize], gy[..windowSize], gz[..windowSize], ops)
      ensures cadence == WindowCadence(MagnitudeSeries(ax[..windowSize], ay[..windowSize], az[..windowSize], ops.sqrt), ops.sqrt)
    {
      var n := windowSize;
      // Remove the DC component of each acceleration axis.
      var processedX := RemoveMean(ax, n);
      var processedY := RemoveMean(ay, n);
      var processedZ := RemoveMean(az, n);
      ghost var px, py, pz := processedX[..], processedY[..], processedZ[..];

      var accelMagnitude := FillMagnitude(ax, ay, az, n, ops.sqrt);

      // Movement bands against the shared 0-2 Hz background.
      var tremorIntensity := CalculateIntensity3(processedX[..], processedY[..], processedZ[..], n, 3.0, 5.0, ops);
      var backgroundNoise := CalculateIntensity3(processedX[..], processedY[..], processedZ[..], n, 0.0, 2.0, ops);
      var tremorDetected := tremorIntensity > 0.25 && tremorIntensity > backgroundNoise * 1.2;
      var dyskinesiaIntensity := CalculateIntensity3(processedX[..], processedY[..], processedZ[..], n, 5.0, 7.0, ops);
      var dyskinesiaDetected := dyskinesiaIntensity > 0.25 && dyskinesiaIntensity > backgroundNoise * 1.2;
      assert px[..n] == px && py[..n] == py && pz[..n] == pz;

      // Gait, then freezing (which reads the cadence just written).
      AnalyzeGait(ax, ay, az, n, ops.sqrt);
      var fogDetected := DetectFog(ax, ay, az, gx, gy, gz, n, ops.sqrt);
      var fogIntensity := CalculateFogIntensity(accelMagnitude[..], n);
      assert accelMagnitude[..][..n] == accelMagnitude[..];

      results := SymptomResults(tremorDetected, tremorIntensity, dyskinesiaDetected, dyskinesiaIntensity,
                                fogDetected, fogIntensity);
    }

    /** A fresh buffer with the first n samples minus their mean. */
    static method RemoveMean(a: seq<real>, n: int) returns (processed: array<real>)
      requires 1 <= n <= |a|
      ensures fresh(processed)
      ensures processed[..] == Demean(a[..n])
    {
      var mean := 0.0;
      for i := 0 to n
        invariant mean == Sum(a[..i])
      {
        SumExtend(a, 0, i);
        mean := mean + a[i];
      }
      mean := mean / n as real;
      assert mean == Mean(a[..n]);

      processed := new real[n];
      for i := 0 to n
        invariant forall j :: 0 <= j < i ==> processed[j] == a[j] - mean
      {
        processed[i] := a[i] - mean;
      }
    }

    /** A fresh buffer with the acceleration magnitude of the first n samples. */
    static method FillMagnitude(x: seq<real>, y: seq<real>, z: seq<real>, n: int, sqrt: real -> real)
      returns (magnitude: array<real>)
      requires 0 <= n && n <= |x| && n <= |y| && n <= |z|
      ensures fresh(magnitude)
      ensures magnitude[..] == MagnitudeSeries(x[..n], y[..n], z[..n], sqrt)
    {
      magnitude := new real[n];
      for i := 0 to n
        invariant forall j :: 0 <= j < i ==> magnitude[j] == Magnitude(x[j], y[j], z[j], sqrt)
      {
        magnitude[i] := sqrt(x[i] * x[i] + y[i] * y[i] + z[i] * z[i]);
      }
    }

    /**
     * The single-axis band score: transform the first size samples, then
     * scan bins 0 .. size/2 - 1 for frequencies in [minFreq, maxFreq].
     */
    method CalculateIntensity(data: seq<real>, size: int, minFreq: real, maxFreq: real, ops: MathOps)
      returns (intensity: real)
      requires 0 <= size <= |data|
      ensures intensity == AxisIntensity(data[..size], minFreq, maxFreq, ops)
      ensures ModulusNonNegative(ops.modulus) ==> 0.0 <= intensity <= 1.0
    {
      var fft := new FftProcessor();
      fft.Process(data, size, SampleRate, ops.twiddle);
      ghost var spectrum := Spectrum(data[..size], ops.twiddle);
      ghost var mags := Magnitudes(spectrum, ops.modulus);

      var maxEnergy, totalEnergy, count := 0.0, 0.0, 0;
      for i := 0 to size / 2
        invariant fft.Valid() && fft.fftSize == size && fft.Result() == spectrum
        invariant size != 0 ==> BandStats(count, totalEnergy, maxEnergy) == Scan(mags, size, minFreq, maxFreq, i)
        invariant size == 0 ==> count == 0
      {
        var freq := FftProcessor.GetFrequency(i, SampleRate, size);
        if freq >= minFreq && freq <= maxFreq {
          var magnitude := fft.GetMagnitude(i, ops.modulus);
          totalEnergy := totalEnergy + magnitude;
          maxEnergy := Max(maxEnergy, magnitude);
          count := count + 1;
        }
      }
      if ModulusNonNegative(ops.modulus) {
        AxisIntensityRange(data[..size], minFreq, maxFreq, ops);
      }
      if count == 0 {
        return 0.0;
      }
      var avgEnergy := totalEnergy / count as real;
      var combinedEnergy := maxEnergy * 0.8 + avgEnergy * 0.2;
      intensity := Min(1.0, combinedEnergy / 1.2);
    }

    /** The three-axis band score: the largest single-axis score. */
    method CalculateIntensity3(dataX: seq<real>, dataY: seq<real>, dataZ: seq<real>, size: int,
                               minFreq: real, maxFreq: real, ops: MathOps) returns (intensity: real)
      requires 0 <= size && size <= |dataX| && size <= |dataY| && size <= |dataZ|
      ensures intensity == Intensity3(dataX[..size], dataY[..size], dataZ[..size], minFreq, maxFreq, ops)
      ensures ModulusNonNegative(ops.modulus) ==> 0.0 <= intensity <= 1.0
    {
      var intensityX := CalculateIntensity(dataX, size, minFreq, maxFreq, ops);
      var intensityY := CalculateIntensity(dataY, size, minFreq, maxFreq, ops);
      var intensityZ := CalculateIntensity(dataZ, size, minFreq, maxFreq, ops);
      intensity := Max(Max(intensityX, intensityY), intensityZ);
    }

    /** The population variance of the magnitude series of the first size samples. */
    method CalculateVariance(x: seq<real>, y: seq<real>, z: seq<real>, size: int, sqrt: real -> real)
      returns (variance: real)
      requires 1 <= size && size <= |x| && size <= |y| && size <= |z|
      ensures variance == CombinedVariance(x[..size], y[..size], z[..size], sqrt)
      ensures variance >= 0.0
    {
      var magnitude := FillMagnitude(x, y, z, size, sqrt);
      var _, v := MeanAndVariance(magnitude[..]);
      variance := v;
    }

    /**
     * The two accumulator loops the detector runs over a buffer: the mean,
     * then the mean squared deviation from it.
     */
    static method MeanAndVariance(m: seq<real>) returns (mean: real, variance: real)
      requires |m| > 0
      ensures mean == Mean(m) && variance == Variance(m)
      ensures variance >= 0.0
    {
      mean := 0.0;
      for i := 0 to |m|
        invariant mean == Sum(m[..i])
      {
        SumExtend(m, 0, i);
        mean := mean + m[i];
      }
      assert m[..|m|] == m;
      mean := mean / |m| as real;

      variance := 0.0;
      for i := 0 to |m|
        invariant variance == SquaredDeviation(m[..i], mean)
      {
        SquaredDeviationExtend(m, mean, 0, i);
        var diff := m[i] - mean;
        variance := variance + diff * diff;
      }
      variance := variance / |m| as real;
      VarianceNonNegative(m);
    }

    /**
     * The freezing score from the second half of the magnitude buffer,
     * indices size/2 .. size-1.
     */
    method CalculateFogIntensity(accelMagnitude: seq<real>, size: int) returns (intensity: real)
      requires 1 <= size <= |accelMagnitude|
      ensures intensity == FogIntensity(accelMagnitude[..size])
      ensures intensity == FogScore(Variance(accelMagnitude[size / 2..size]))
      ensures 0.0 <= intensity <= 1.0
    {
      var h := size / 2;
      assert accelMagnitude[..size][h..] == accelMagnitude[h..size];
      var _, varianceHalf := MeanAndVariance(accelMagnitude[h..size]);
      intensity := Min(1.0, Max(0.0, (0.005 - varianceHalf) / 0.005));
    }

    /** Counts the steps in the magnitude series and stores steps / 3 s as the cadence. */
    method AnalyzeGait(ax: seq<real>, ay: seq<real>, az: seq<real>, size: int, sqrt: real -> real)
      requires 1 <= size && size <= |ax| && size <= |ay| && size <= |az|
      modifies this`cadence
      ensures cadence == WindowCadence(MagnitudeSeries(ax[..size], ay[..size], az[..size], sqrt), sqrt)
    {
      var accelMagnitude := FillMagnitude(ax, ay, az, size, sqrt);
      assert accelMagnitude[..][..size] == accelMagnitude[..];
      var steps := DetectSteps(accelMagnitude[..], size, sqrt);
      cadence := steps as real / 3.0;
    }

    /**
     * The peak scan: the threshold is the mean plus half the standard
     * deviation, and a step is a rising crossing of the threshold at an
     * interior local maximum.
     */
    method DetectSteps(accelMagnitude: seq<real>, size: int, sqrt: real -> real) returns (steps: int)
      requires 1 <= size <= |accelMagnitude|
      ensures steps == StepCount(accelMagnitude[..size], Threshold(accelMagnitude[..size], sqrt))
      ensures 0 <= steps <= (size - 1) / 2
      ensures size < 3 ==> steps == 0
    {
      var mean, variance := MeanAndVariance(accelMagnitude[..size]);
      var stdDev := sqrt(variance);
      var threshold := mean + stdDev * 0.5;
      ghost var m := accelMagnitude[..size];
      assert threshold == Threshold(m, sqrt);

      steps := 0;
      var wasAbove := false;
      var i := 1;
      while i < size - 1
        invariant 1 <= i && (i == 1 || i <= size - 1)
        invariant steps == StepsBefore(m, threshold, i)
        invariant wasAbove == (i > 1 && m[i - 1] > threshold)
      {
        var isAbove := accelMagnitude[i] > threshold;
        if isAbove && !wasAbove && accelMagnitude[i] > accelMagnitude[i - 1] && accelMagnitude[i] > accelMagnitude[i + 1] {
          steps := steps + 1;
        }
        wasAbove := isAbove;
        i := i + 1;
      }
      StepCountBound(m, threshold);
    }

    /**
     * The freezing classifier on thirds of the window: the cadence field,
     * the variance of the first third, and the variances of the last third.
     */
    method DetectFog(ax: seq<real>, ay: seq<real>, az: seq<real>,
                     gx: seq<real>, gy: seq<real>, gz: seq<real>, size: int, sqrt: real -> real)
      returns (frozen: bool)
      requires 3 <= size
      requires size <= |ax| && size <= |ay| && size <= |az|
      requires size <= |gx| && size <= |gy| && size <= |gz|
      ensures frozen == FogVerdict(cadence, ax[..size], ay[..size], az[..size], gx[..size], gy[..size], gz[..size], sqrt)
    {
      var t := size / 3;
      var accelVarianceFirst := CalculateVariance(ax, ay, az, t, sqrt);
      var accelVarianceLast := CalculateVariance(ax[2 * t..], ay[2 * t..], az[2 * t..], t, sqrt);
      var gyroVarianceLast := CalculateVariance(gx[2 * t..], gy[2 * t..], gz[2 * t..], t, sqrt);
      assert ax[..t] == ax[..size][..t] && ay[..t] == ay[..size][..t] && az[..t] == az[..size][..t];
      assert ax[2 * t..][..t] == ax[..size][2 * t..3 * t];
      assert ay[2 * t..][..t] == ay[..size][2 * t..3 * t];
      assert az[2 * t..][..t] == az[..size][2 * t..3 * t];
      assert gx[2 * t..][..t] == gx[..size][2 * t..3 * t];
      assert gy[2 * t..][..t] == gy[..size][2 * t..3 * t];
      assert gz[2 * t..][..t] == gz[..size][2 * t..3 * t];

      var wasWalking := cadence > 0.3;
      var isFrozen := accelVarianceLast < 0.01 && gyroVarianceLast < 0.01;
      var suddenStop := accelVarianceLast < accelVarianceFirst * 0.5;
      frozen := wasWalking && isFrozen && suddenStop;
    }
  }

  /**
   * The verdicts of a window do not depend on what the detector saw
   * before: two detectors in any states agree on the same window.
   */
  method AnalysisIsHistoryFree(first: SymptomDetector, second: SymptomDetector,
                               ax: seq<real>, ay: seq<real>, az: seq<real>,
                               gx: seq<real>, gy: seq<real>, gz: seq<real>,
                               windowSize: int, ops: MathOps) returns (r1: SymptomResults, r2: SymptomResults)
    requires 3 <= windowSize
    requires windowSize <= |ax| && windowSize <= |ay| && windowSize <= |az|
    requires windowSize <= |gx| && windowSize <= |gy| && windowSize <= |gz|
    modifies first, second
    ensures r1 == r2 && first.cadence == second.cadence
  {
    r1 := first.Analyze(ax, ay, az, gx, gy, gz, windowSize, ops);
    r2 := second.Analyze(ax, ay, az, gx, gy, gz, windowSize, ops);
  }
}

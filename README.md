# Per-window symptom analysis, modelled in Dafny

This project models the analysis core of a wearable movement-disorder
detector. Every few seconds the detector receives a window of samples:
three acceleration axes and three angular-rate axes, 52 samples per second.
From each window it derives three verdicts, each a flag and an intensity:

- **tremor**: spectral energy between 3 and 5 Hz;
- **dyskinesia**: spectral energy between 5 and 7 Hz;
- **freezing of gait (FOG)**: walking, then a sudden stillness in the last
  third of the window.

The model covers two C++ classes:

- `SymptomDetector` (`src/SymptomDetector.cpp`):
  - DC removal;
  - band intensity (single-axis and three-axis);
  - the tremor/dyskinesia rule against a shared 0-2 Hz background;
  - step counting and the `cadence` field;
  - the freezing classifier and the freezing intensity;
  - the combined-magnitude variance.
- `FFTProcessor` (`src/FFTProcessor.cpp`):
  - the recursive radix-2 Cooley-Tukey transform, which zero-pads a
    length that is not a power of two;
  - `process`, which owns the result buffer;
  - the two accessors `getFrequency` and `getMagnitude`.

Layout (one module per file):

- `numerics.dfy` (`Numerics`): complex arithmetic over `real`, and the
  `MathOps` value. `MathOps` carries square root, complex modulus and the
  twiddle factor e^(-2πik/n). Ghost predicates state the only facts the
  proofs assume about them:
  - `SqrtNonNegative`, `SqrtOfZero`;
  - `ModulusNonNegative`, `ModulusOfZero`;
  - `RootsOfUnity`: w(0,n) = w(n,n) = 1, w(a+b,n) = w(a,n)·w(b,n),
    w(2a,2m) = w(a,m), w(m,2m) = -1.
- `radix2.dfy` (`Radix2`): the recursion as a pure function `Transform`,
  the DFT sum `Dft`, and the theorems that connect them.
- `spectral.dfy` (`Spectral`): class `FftProcessor`. Its fields
  `fftResult: array?<Complex>` and `fftSize` are updated in place. `Fft`
  works on an `array` in place and is proved equal to `Transform`.
- `statistics.dfy` (`Statistics`):
  - left-to-right sums, means and population variances;
  - de-meaning;
  - the magnitude sqrt(x²+y²+z²).
- `gait.dfy` (`Gait`): the step predicate, the step count, the adaptive
  threshold and the cadence.
- `bands.dfy` (`Bands`): the bin scan, the band score and the three-axis
  maximum.
- `symptoms.dfy` (`Symptoms`):
  - the `SymptomResults` record;
  - the detection and freezing rules, with their constants;
  - `Verdicts`, the pure reference for one window.
- `detector.dfy` (`Detector`): class `SymptomDetector` with the `cadence`
  field. Each C++ member with a loop becomes a method with that loop,
  proved against the pure definitions.

The entry point is `SymptomDetector.Analyze`. It returns exactly
`Verdicts(window)`, and it sets `cadence` to the cadence of the window.
Neither result mentions the detector's earlier state, so the verdicts do not
depend on history (`AnalysisIsHistoryFree`).

The model keeps these details of the code as written:

- The band scan visits bins `0 .. size/2 - 1`, exclusive at `size/2`
  (`src/SymptomDetector.cpp:134`). The bin `size/2` is never scanned.
- At index 1, the rising-edge test does not look at sample 0. The flag
  `wasAbove` starts false, so a step at 1 needs only `mag[1] > threshold`
  and the local-maximum tests (`src/SymptomDetector.cpp:238-243`).
- Cadence always divides by 3.0, whatever the window length
  (`src/SymptomDetector.cpp:211`).
- `getFrequency` divides by the caller's unpadded size
  (`src/SymptomDetector.cpp:135`, `src/FFTProcessor.cpp:32-34`).
- `process` reallocates only when `size` differs from `fftSize`, and that
  comparison uses the unpadded size (`src/FFTProcessor.cpp:15`). The padded
  buffer is local to `fft` (`src/FFTProcessor.cpp:54`). It appears here as
  the fresh array of `ZeroPadded`.
- For windows shorter than 3 samples the code has no guard. `Analyze` and
  `DetectFog` therefore require `windowSize >= 3` instead of returning
  "no freezing, intensity 0".

## Model

| member | source | states |
|---|---|---|
| Radix2.NextPow2IsLeast | src/FFTProcessor.cpp:49-50 | the doubling loop ends at a power of two that is at least n and at most every power of two that is at least n |
| Radix2.NextPow2OfPow2 | src/FFTProcessor.cpp:49-52 | for a power-of-two n the loop stops at n, so no padding happens |
| Radix2.HalfOfPow2 | src/FFTProcessor.cpp:71-80 | a power of two of at least 2 is even and its half is again a power of two, so both recursive calls get power-of-two lengths |
| Radix2.Pad | src/FFTProcessor.cpp:54-60 | the padded buffer has length pow2, starts with the n inputs and is zero from n to pow2 |
| Radix2.Transform | src/FFTProcessor.cpp:44-92 | the recursion keeps the length, and a length of at most 1 is returned unchanged |
| Radix2.ButterflyPairSum | src/FFTProcessor.cpp:83-88 | x[k] + x[k + n/2] = 2·even[k] for each butterfly |
| Radix2.TransformIsDft | src/FFTProcessor.cpp:43-92 | for a power-of-two length the recursion equals the DFT sum Σ_j x[j]·w(jk, n) |
| Radix2.TransformIsPaddedDft | src/FFTProcessor.cpp:52-68 | for every non-empty input the result is the first n bins of the DFT of the input zero-padded to the next power of two |
| Radix2.DcBinIsTotal | src/FFTProcessor.cpp:43-92 | bin 0 is the plain sum of the n original inputs, on the padded path as well |
| Radix2.TransformOfZero | src/FFTProcessor.cpp:43-92 | an all-zero input transforms to all zeros |
| Spectral.FftProcessor.constructor | src/FFTProcessor.cpp:4-5 | a new processor holds no buffer and has size 0 |
| Spectral.FftProcessor.Process | src/FFTProcessor.cpp:13-30 | afterwards fftSize == size and the buffer holds the transform of the first size samples; the buffer is replaced by a fresh one exactly when size differs from the old fftSize; the sampling frequency is unused |
| Spectral.FftProcessor.GetMagnitude | src/FFTProcessor.cpp:36-41 | 0 for a bin outside [0, fftSize), otherwise the modulus of that bin, never negative when the modulus is not |
| Spectral.FftProcessor.GetFrequency | src/FFTProcessor.cpp:32-34 | the result times size is bin·fs, so it is bin·fs/size for the caller's unpadded size; size ≠ 0 is required |
| Spectral.FrequencyIsMonotone | src/FFTProcessor.cpp:32-34 | bin·fs/size never decreases with the bin for fs > 0 and size > 0 |
| Spectral.FftProcessor.Fft | src/FFTProcessor.cpp:44-92 | x[0..n) becomes Transform of its old contents and x[n..] is untouched |
| Spectral.FftProcessor.FftPadded | src/FFTProcessor.cpp:52-68 | for n that is not a power of two, x[0..n) becomes the first n bins of the transform of the padded buffer and nothing at index n or beyond is written |
| Spectral.FftProcessor.ZeroPadded | src/FFTProcessor.cpp:54-60 | the fresh buffer is x[0..n) followed by zeros up to pow2 |
| Spectral.FftProcessor.CopyPrefix | src/FFTProcessor.cpp:63-65 | the first n entries are copied back and the rest of x is unchanged |
| Spectral.FftProcessor.Deinterleave | src/FFTProcessor.cpp:71-77 | even[i] = x[2i] and odd[i] = x[2i+1] for i < n/2, in two distinct fresh buffers |
| Spectral.FftProcessor.Merge | src/FFTProcessor.cpp:83-88 | x[k] = even[k] + t and x[k+n/2] = even[k] - t with t = w(k, n)·odd[k]; entries from n on are unchanged |
| Statistics.DemeanSumsToZero | src/SymptomDetector.cpp:25-39 | each de-meaned axis sums to zero over the window |
| Statistics.SumOfShift | src/SymptomDetector.cpp:35-39 | subtracting c from every sample lowers the sum by N·c |
| Statistics.DemeanOfConstant | src/SymptomDetector.cpp:25-39 | de-meaning a constant axis leaves all zeros |
| Statistics.VarianceNonNegative | src/SymptomDetector.cpp:265-270 | the population variance is never negative |
| Statistics.ConstantStatistics | src/SymptomDetector.cpp:222-233 | a constant series has that constant as its mean and variance 0 |
| Gait.StepsBeforeIsCardinality | src/SymptomDetector.cpp:238-247 | the count is the number of indices i in [1, k) with mag[i] > threshold, (i = 1 or mag[i-1] ≤ threshold), mag[i] > mag[i-1] and mag[i] > mag[i+1] |
| Gait.NoAdjacentSteps | src/SymptomDetector.cpp:241-243 | if i+1 is a step, i is not |
| Gait.StepsBeforeBound | src/SymptomDetector.cpp:238-247 | at most k/2 steps among the indices below k |
| Gait.StepCountBound | src/SymptomDetector.cpp:238-247 | steps ≤ (size-1)/2, and 0 when size < 3 |
| Gait.ConstantWindowHasNoSteps | src/SymptomDetector.cpp:222-247 | for a constant magnitude series the threshold is the constant, no sample exceeds it, steps are 0 and cadence is 0 |
| Gait.ThresholdAtLeastMean | src/SymptomDetector.cpp:228-235 | with a non-negative square root the threshold mean + 0.5·stdDev is at least the mean |
| Gait.WindowCadenceBound | src/SymptomDetector.cpp:207-211 | 0 ≤ cadence ≤ ((size-1)/2)/3 |
| Bands.Score | src/SymptomDetector.cpp:144-151 | the score is at most 1, and at least 0 when the peak and sum are |
| Bands.ScanCount | src/SymptomDetector.cpp:134-142 | count is the number of scanned bins whose frequency lies in [minFreq, maxFreq] |
| Bands.ScanPeak | src/SymptomDetector.cpp:134-142 | the peak bounds every in-band magnitude and is either 0 or one of them |
| Bands.ScanReadsPrefix | src/SymptomDetector.cpp:134-141 | the statistics after k bins depend only on magnitudes 0..k-1 |
| Bands.BandIntensityReadsLowerHalf | src/SymptomDetector.cpp:134-151 | two spectra that agree on bins 0..size/2-1 get the same intensity |
| Bands.NoBinInBand | src/SymptomDetector.cpp:134-144 | when no scanned bin lies in the band the intensity is 0 |
| Bands.BandIntensityRange | src/SymptomDetector.cpp:144-151 | with non-negative magnitudes the intensity lies in [0, 1] |
| Bands.AxisIntensityRange | src/SymptomDetector.cpp:125-152 | the single-axis intensity lies in [0, 1] when the modulus is non-negative |
| Bands.Intensity3Bounds | src/SymptomDetector.cpp:154-162 | the three-axis intensity is one of the three axis intensities, at least each of them, and in [0, 1] |
| Bands.SilentAxis | src/SymptomDetector.cpp:125-152 | an all-zero axis has intensity 0 in every band |
| Symptoms.FogScore | src/SymptomDetector.cpp:194 | the score lies in [0, 1]; it is 0 exactly when the variance is at least 0.005 and 1 exactly when the variance is at most 0 |
| Symptoms.VerdictsInRange | src/SymptomDetector.cpp:50-68 | all three intensities lie in [0, 1], and a tremor or dyskinesia detection implies an intensity above 0.25 |
| Symptoms.SaturatedBackgroundMasks | src/SymptomDetector.cpp:52-60 | a 0-2 Hz background with 1.2·background ≥ 1 rules out both tremor and dyskinesia, because both compare against the same background |
| Symptoms.StillSecondHalf | src/SymptomDetector.cpp:180-194 | a constant second half of the magnitude series gives freezing intensity 1 |
| Symptoms.MotionlessWindow | src/SymptomDetector.cpp:15-76 | constant acceleration gives no tremor, no dyskinesia (both intensity 0), no freezing and freezing intensity 1, whatever the gyroscope reads |
| Detector.SymptomDetector.constructor | src/SymptomDetector.cpp:6-7 | lastStepTime, stepCount and cadence start at 0 |
| Detector.SymptomDetector.Begin | src/SymptomDetector.cpp:9-13 | resets lastStepTime, stepCount and cadence to 0 |
| Detector.SymptomDetector.Analyze | src/SymptomDetector.cpp:15-76 | the results are exactly Verdicts of the first windowSize samples: tremor and dyskinesia are detected iff their intensity is > 0.25 and > 1.2 × the shared 0-2 Hz background on the de-meaned axes; freezing uses the cadence of this window; cadence is left at that window's cadence |
| Detector.SymptomDetector.RemoveMean | src/SymptomDetector.cpp:25-39 | the fresh buffer holds each of the first n samples minus their mean |
| Detector.SymptomDetector.FillMagnitude | src/SymptomDetector.cpp:42-47 | the fresh buffer holds sqrt(x²+y²+z²) of each of the first n samples |
| Detector.SymptomDetector.CalculateIntensity | src/SymptomDetector.cpp:125-152 | the loop computes the band intensity of the spectrum of the first size samples over bins 0..size/2-1, and the result lies in [0, 1] |
| Detector.SymptomDetector.CalculateIntensity3 | src/SymptomDetector.cpp:154-162 | the result is the largest of the three single-axis intensities, in [0, 1] |
| Detector.SymptomDetector.CalculateVariance | src/SymptomDetector.cpp:252-274 | the population variance of the magnitude series of the first size samples, never negative |
| Detector.SymptomDetector.MeanAndVariance | src/SymptomDetector.cpp:259-270 | the two accumulator loops compute the mean and the population variance, never negative |
| Detector.SymptomDetector.CalculateFogIntensity | src/SymptomDetector.cpp:180-194 | the score of the variance of indices size/2..size-1 only, in [0, 1] |
| Detector.SymptomDetector.AnalyzeGait | src/SymptomDetector.cpp:197-214 | cadence becomes the step count of the window's magnitude series divided by 3.0 |
| Detector.SymptomDetector.DetectSteps | src/SymptomDetector.cpp:216-250 | the scan with the wasAbove flag counts exactly the StepAt indices under threshold = mean + 0.5·stdDev; 0 ≤ steps ≤ (size-1)/2, and 0 for size < 3 |
| Detector.SymptomDetector.DetectFog | src/SymptomDetector.cpp:90-123 | true iff cadence > 0.3, the last-third acceleration and gyroscope variances are both < 0.01, and the last-third acceleration variance is below half the first-third one; the thirds are [0, t) and [2t, 3t) with t = size/3 |
| Detector.AnalysisIsHistoryFree | src/SymptomDetector.cpp:15-76 | two detectors in any prior states produce equal results and equal cadence for the same window |

## Left out

- Floating point: samples, intensities and constants are exact `real`s.
  Single-precision rounding, NaN and infinities are not modelled.
- Square root, `std::polar`/`sin`/`cos` and `std::abs` of a complex number
  are parameters (`MathOps`). Only the facts listed for `Numerics` are
  assumed about them. No concrete spectrum of a sine wave is derived.
- `ifft` (`src/FFTProcessor.cpp:94-107`) is never called by the detector.
- `detectTremor` and `detectDyskinesia` with their 0.15 threshold
  (`src/SymptomDetector.cpp:78-88`) are dead code. `analyze` does not call
  them.
- The full-window mean and variance that `calculateFOGIntensity` computes
  and then discards (`src/SymptomDetector.cpp:166-177`). They influence
  nothing.
- `lastStepTime` and `stepCount` are only ever set to 0. They are modelled as
  fields and never read.
- `new`/`delete[]` lifetimes and the destructor: buffers are Dafny arrays
  that are never freed.
- `int` overflow: the doubling loop for `pow2` and the step counter are
  modelled on unbounded integers.
- Analyze: requires `windowSize >= 3`. For shorter windows the C++ divides by
  zero (`size/3`, the means) without a guard.
- DetectFog: requires `size >= 3`, so that each third is non-empty.
- CalculateVariance, DetectSteps, CalculateFogIntensity, RemoveMean,
  AnalyzeGait: require `size >= 1` (`n >= 1` for RemoveMean), since each
  divides by its sample count or calls a method that does.
- RemoveMean: analyze accumulates the three means in one loop and subtracts
  them in another (`src/SymptomDetector.cpp:25-39`). The model runs one
  accumulate-then-subtract pass per axis. The values are the same.
- MeanAndVariance: the mean and squared-deviation loops that
  `calculateVariance`, `detectSteps` and `calculateFOGIntensity` each repeat
  are written once, as a method over a sequence. Each caller passes the
  buffer or half-buffer its loops ran over.
- The sensor driver, sample source, wireless transport, timers, main loops
  and test programs are outside the analysis core and are not part of this
  model.

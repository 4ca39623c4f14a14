/**
 * Band intensity: the score single-axis calculateIntensity derives from
 * the magnitudes of the lower half of the spectrum, and the three-axis
 * maximum.
 */
module Bands {
  import opened Numerics
  import opened Radix2
  import opened Spectral

  /** The sampling rate the detector passes to the transform, in Hz. */
  const SampleRate: real := 52.0

  /** What the scan over the bins accumulates: bins in band, their sum and their peak. */
  datatype BandStats = BandStats(count: nat, total: real, peak: real)

  /** Whether a bin's frequency lies in [minFreq, maxFreq] (both ends included). */
  predicate InBand(bin: int, size: int, minFreq: real, maxFreq: real)
    requires size != 0
  {
    var f := FftProcessor.GetFrequency(bin, SampleRate, size);
    f >= minFreq && f <= maxFreq
  }

  /** The statistics of the in-band bins among bins 0 .. k-1, accumulated left to right. */
  function Scan(mags: seq<real>, size: int, minFreq: real, maxFreq: real, k: nat): BandStats
    requires k <= |mags| && size != 0
  {
    if k == 0 then BandStats(0, 0.0, 0.0)
    else
      var st := Scan(mags, size, minFreq, maxFreq, k - 1);
      if InBand(k - 1, size, minFreq, maxFreq) then
        BandStats(st.count + 1, st.total + mags[k - 1], Max(st.peak, mags[k - 1]))
      else st
  }

  /** The scan's statistics turned into a score: peak-weighted, normalised and capped at 1. */
  function Score(st: BandStats): (r: real)
    ensures r <= 1.0
    ensures st.peak >= 0.0 && st.total >= 0.0 ==> r >= 0.0
  {
    if st.count == 0 then 0.0
    else
      var average := st.total / st.count as real;
      Min(1.0, (st.peak * 0.8 + average * 0.2) / 1.2)
  }

  /** The score of a spectrum of the given (unpadded) size over bins 0 .. size/2 - 1. */
  function BandIntensity(mags: seq<real>, size: int, minFreq: real, maxFreq: real): real
    requires |mags| == size
  {
    if size == 0 then 0.0 else Score(Scan(mags, size, minFreq, maxFreq, size / 2))
  }

  /** Single-axis calculateIntensity for a window of samples. */
  function AxisIntensity(data: seq<real>, minFreq: real, maxFreq: real, ops: MathOps): real {
    BandIntensity(Magnitudes(Spectrum(data, ops.twiddle), ops.modulus), |data|, minFreq, maxFreq)
  }

  /** Three-axis calculateIntensity: the largest of the three single-axis scores. */
  function Intensity3(x: seq<real>, y: seq<real>, z: seq<real>, minFreq: real, maxFreq: real, ops: MathOps): real {
    Max(Max(AxisIntensity(x, minFreq, maxFreq, ops), AxisIntensity(y, minFreq, maxFreq, ops)),
        AxisIntensity(z, minFreq, maxFreq, ops))
  }

  predicate NonNegative(s: seq<real>) {
    forall i :: 0 <= i < |s| ==> s[i] >= 0.0
  }

  // ---------------------------------------------------------------------
  // The scan
  // ---------------------------------------------------------------------

  /** The count is the number of in-band bins below k. */
  lemma {:induction false} ScanCount(mags: seq<real>, size: int, minFreq: real, maxFreq: real, k: nat)
    requires k <= |mags| && size != 0
    ensures Scan(mags, size, minFreq, maxFreq, k).count == |set i | 0 <= i < k && InBand(i, size, minFreq, maxFreq)|
  {
    var bins := set i | 0 <= i < k && InBand(i, size, minFreq, maxFreq);
    if k == 0 {
      assert bins == {};
    } else {
      ScanCount(mags, size, minFreq, maxFreq, k - 1);
      var earlier := set i | 0 <= i < k - 1 && InBand(i, size, minFreq, maxFreq);
      if InBand(k - 1, size, minFreq, maxFreq) {
        assert bins == earlier + {k - 1};
      } else {
        assert bins == earlier;
      }
    }
  }

  /**
   * The peak bounds every in-band magnitude below k and, unless it is the
   * initial 0, is one of them.
   */
  lemma {:induction false} ScanPeak(mags: seq<real>, size: int, minFreq: real, maxFreq: real, k: nat)
    requires k <= |mags| && size != 0
    ensures forall i :: 0 <= i < k && InBand(i, size, minFreq, maxFreq) ==> mags[i] <= Scan(mags, size, minFreq, maxFreq, k).peak
    ensures Scan(mags, size, minFreq, maxFreq, k).peak == 0.0
         || exists i :: 0 <= i < k && InBand(i, size, minFreq, maxFreq) && mags[i] == Scan(mags, size, minFreq, maxFreq, k).peak
  {
    if k > 0 {
      ScanPeak(mags, size, minFreq, maxFreq, k - 1);
    }
  }

  lemma {:induction false} ScanNonNegative(mags: seq<real>, size: int, minFreq: real, maxFreq: real, k: nat)
    requires k <= |mags| && size != 0 && NonNegative(mags)
    ensures Scan(mags, size, minFreq, maxFreq, k).total >= 0.0 && Scan(mags, size, minFreq, maxFreq, k).peak >= 0.0
  {
    if k > 0 {
      ScanNonNegative(mags, size, minFreq, maxFreq, k - 1);
    }
  }

  /** Only the bins below k are read. */
  lemma {:induction false} ScanReadsPrefix(mags: seq<real>, mags': seq<real>, size: int, minFreq: real, maxFreq: real, k: nat)
    requires k <= |mags| && k <= |mags'| && size != 0
    requires mags[..k] == mags'[..k]
    ensures Scan(mags, size, minFreq, maxFreq, k) == Scan(mags', size, minFreq, maxFreq, k)
  {
    if k > 0 {
      assert mags[..k - 1] == mags[..k][..k - 1] && mags'[..k - 1] == mags'[..k][..k - 1];
      assert mags[k - 1] == mags[..k][k - 1];
      ScanReadsPrefix(mags, mags', size, minFreq, maxFreq, k - 1);
    }
  }

  lemma {:induction false} ScanOfZeros(mags: seq<real>, size: int, minFreq: real, maxFreq: real, k: nat)
    requires k <= |mags| && size != 0
    requires forall i :: 0 <= i < |mags| ==> mags[i] == 0.0
    ensures Scan(mags, size, minFreq, maxFreq, k).total == 0.0 && Scan(mags, size, minFreq, maxFreq, k).peak == 0.0
  {
    if k > 0 {
      ScanOfZeros(mags, size, minFreq, maxFreq, k - 1);
    }
  }

  // ---------------------------------------------------------------------
  // The intensity
  // ---------------------------------------------------------------------

  /** Only the lower half of the spectrum, bins 0 .. size/2 - 1, decides the intensity. */
  lemma BandIntensityReadsLowerHalf(mags: seq<real>, mags': seq<real>, size: int, minFreq: real, maxFreq: real)
    requires |mags| == |mags'| == size
    requires mags[..size / 2] == mags'[..size / 2]
    ensures BandIntensity(mags, size, minFreq, maxFreq) == BandIntensity(mags', size, minFreq, maxFreq)
  {
    if size > 0 {
      ScanReadsPrefix(mags, mags', size, minFreq, maxFreq, size / 2);
    }
  }

  /** With no scanned bin in band the intensity is 0, whatever the magnitudes. */
  lemma NoBinInBand(mags: seq<real>, size: int, minFreq: real, maxFreq: real)
    requires |mags| == size > 0
    requires forall i :: 0 <= i < size / 2 ==> !InBand(i, size, minFreq, maxFreq)
    ensures BandIntensity(mags, size, minFreq, maxFreq) == 0.0
  {
    ScanCount(mags, size, minFreq, maxFreq, size / 2);
    assert (set i | 0 <= i < size / 2 && InBand(i, size, minFreq, maxFreq)) == {};
  }

  /** Non-negative magnitudes give an intensity in [0, 1]. */
  lemma BandIntensityRange(mags: seq<real>, size: int, minFreq: real, maxFreq: real)
    requires |mags| == size && NonNegative(mags)
    ensures 0.0 <= BandIntensity(mags, size, minFreq, maxFreq) <= 1.0
  {
    if size > 0 {
      ScanNonNegative(mags, size, minFreq, maxFreq, size / 2);
    }
  }

  lemma AxisIntensityRange(data: seq<real>, minFreq: real, maxFreq: real, ops: MathOps)
    requires ModulusNonNegative(ops.modulus)
    ensures 0.0 <= AxisIntensity(data, minFreq, maxFreq, ops) <= 1.0
  {
    BandIntensityRange(Magnitudes(Spectrum(data, ops.twiddle), ops.modulus), |data|, minFreq, maxFreq);
  }

  /** The three-axis intensity is one of the three, at least each of them, and in [0, 1]. */
  lemma Intensity3Bounds(x: seq<real>, y: seq<real>, z: seq<real>, minFreq: real, maxFreq: real, ops: MathOps)
    requires ModulusNonNegative(ops.modulus)
    ensures var r := Intensity3(x, y, z, minFreq, maxFreq, ops);
      && r >= AxisIntensity(x, minFreq, maxFreq, ops)
      && r >= AxisIntensity(y, minFreq, maxFreq, ops)
      && r >= AxisIntensity(z, minFreq, maxFreq, ops)
      && (r == AxisIntensity(x, minFreq, maxFreq, ops) || r == AxisIntensity(y, minFreq, maxFreq, ops)
          || r == AxisIntensity(z, minFreq, maxFreq, ops))
      && 0.0 <= r <= 1.0
  {
    AxisIntensityRange(x, minFreq, maxFreq, ops);
    AxisIntensityRange(y, minFreq, maxFreq, ops);
    AxisIntensityRange(z, minFreq, maxFreq, ops);
  }

  /** A silent axis (all samples 0) has a zero spectrum and so intensity 0 in every band. */
  lemma SilentAxis(data: seq<real>, minFreq: real, maxFreq: real, ops: MathOps)
    requires forall i :: 0 <= i < |data| ==> data[i] == 0.0
    requires ModulusOfZero(ops.modulus)
    ensures AxisIntensity(data, minFreq, maxFreq, ops) == 0.0
  {
    var spectrum := Spectrum(data, ops.twiddle);
    assert AllZero(ToComplex(data));
    TransformOfZero(ToComplex(data), ops.twiddle);
    var mags := Magnitudes(spectrum, ops.modulus);
    assert forall i :: 0 <= i < |mags| ==> mags[i] == ops.modulus(spectrum[i]) == 0.0;
    if |data| > 0 {
      ScanOfZeros(mags, |data|, minFreq, maxFreq, |data| / 2);
    }
  }
}

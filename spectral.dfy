/**
 * FFTProcessor: the object that owns the result buffer of one transform,
 * the in-place recursive transform itself, and the two read accessors.
 */
module Spectral {
  import opened Numerics
  import opened Radix2

  /** The real samples as the complex buffer process fills before transforming. */
  function ToComplex(data: seq<real>): seq<Complex> {
    seq(|data|, i requires 0 <= i < |data| => FromReal(data[i]))
  }

  /** The spectrum process leaves for a window of real samples. */
  function Spectrum(data: seq<real>, w: Twiddle): (r: seq<Complex>)
    ensures |r| == |data|
  {
    Transform(ToComplex(data), w)
  }

  /** The moduli of a spectrum, bin by bin. */
  function Magnitudes(spectrum: seq<Complex>, modulus: Complex -> real): (r: seq<real>)
    ensures |r| == |spectrum|
  {
    seq(|spectrum|, i requires 0 <= i < |spectrum| => modulus(spectrum[i]))
  }

  class FftProcessor {
    /** null until the first process call that changes the size. */
    var fftResult: array?<Complex>
    var fftSize: int

    ghost predicate Valid()
      reads this
    {
      && (fftResult == null ==> fftSize == 0)
      && (fftResult != null ==> fftResult.Length == fftSize)
    }

    /** The bins the processor currently holds. */
    ghost function Result(): (r: seq<Complex>)
      reads this, fftResult
      requires Valid()
      ensures |r| == fftSize
    {
      if fftResult == null then [] else fftResult[..]
    }

    constructor ()
      ensures Valid() && fftResult == null && fftSize == 0
    {
      fftResult := null;
      fftSize := 0;
    }

    /**
     * Copies the first size samples into the result buffer and transforms
     * them in place. The buffer is replaced only when size differs from the
     * current fftSize. The sampling frequency is not used.
     */
    method Process(data: seq<real>, size: int, samplingFreq: real, w: Twiddle)
      requires Valid() && 0 <= size <= |data|
      modifies this, fftResult
      ensures Valid() && fftSize == size
      ensures Result() == Spectrum(data[..size], w)
      ensures old(fftSize) == size ==> fftResult == old(fftResult)
      ensures old(fftSize) != size ==> fftResult != null && fresh(fftResult)
    {
      if fftSize != size {
        fftResult := new Complex[size];
        fftSize := size;
      }
      var buffer := fftResult;
      if buffer != null {
        for i := 0 to size
          invariant fftResult == buffer && fftSize == size
          invariant forall j :: 0 <= j < i ==> buffer[j] == FromReal(data[j])
        {
          buffer[i] := FromReal(data[i]);
        }
        ghost var copied := buffer[..];
        assert copied == buffer[..size] == ToComplex(data[..size]);
        Fft(buffer, size, w);
        assert buffer[..] == buffer[..size] == Transform(copied, w);
      } else {
        assert ToComplex(data[..size]) == [];
      }
    }

    /** The frequency of a bin for the caller's (unpadded) window size. */
    static function GetFrequency(bin: int, samplingFreq: real, size: int): (r: real)
      requires size != 0
      ensures r * size as real == bin as real * samplingFreq
    {
      (bin as real * samplingFreq) / size as real
    }

    /** The modulus of a held bin; 0 for any index outside [0, fftSize). */
    function GetMagnitude(bin: int, modulus: Complex -> real): (r: real)
      reads this, fftResult
      requires Valid()
      ensures !(0 <= bin < fftSize) ==> r == 0.0
      ensures 0 <= bin < fftSize ==> r == modulus(Result()[bin])
      ensures ModulusNonNegative(modulus) ==> r >= 0.0
    {
      if 0 <= bin < fftSize then modulus(fftResult[bin]) else 0.0
    }

    /**
     * The recursive radix-2 transform of x[0..n), in place. Entries at
     * index n and beyond are never written.
     */
    static method Fft(x: array<Complex>, n: nat, w: Twiddle)
      requires n <= x.Length
      modifies x
      ensures x[..n] == Transform(old(x[..n]), w)
      ensures x[n..] == old(x[n..])
      decreases NextPow2(n), if NextPow2(n) == n then 0 else 2
    {
      if n <= 1 {
        return;
      }
      ghost var input := x[..n];

      var pow2 := 1;
      while pow2 < n
        invariant IsPow2(pow2) && NextPow2From(pow2, n) == NextPow2(n)
        decreases n - pow2
      {
        assert (2 * pow2) / 2 == pow2;
        pow2 := pow2 * 2;
      }
      NextPow2OfPow2(pow2);

      if pow2 != n {
        assert NextPow2(n) == pow2;
        FftPadded(x, n, pow2, w);
        return;
      }

      // Split into the even and the odd entries, transform both halves, merge.
      var even, odd := Deinterleave(x, n);
      HalfOfPow2(n);
      assert even[..n / 2] == even[..] && odd[..n / 2] == odd[..];
      Fft(even, n / 2, w);
      Fft(odd, n / 2, w);
      assert even[..] == even[..n / 2] == Transform(Evens(input), w);
      assert odd[..] == odd[..n / 2] == Transform(Odds(input), w);
      Merge(x, even, odd, w);
      assert NextPow2(n) == n;
      assert x[..n] == Butterfly(Transform(Evens(input), w), Transform(Odds(input), w), w);
    }

    /**
     * The branch of fft for a length that is not a power of two: zero-pad to
     * the next power of two, transform, and keep the first n bins.
     */
    static method FftPadded(x: array<Complex>, n: nat, pow2: nat, w: Twiddle)
      requires 1 < n <= x.Length && pow2 == NextPow2(n) && pow2 != n
      modifies x
      ensures x[..n] == Transform(old(x[..n]), w)
      ensures x[n..] == old(x[n..])
      decreases pow2, 1
    {
      ghost var input := x[..n];
      NextPow2IsLeast(n);
      NextPow2OfPow2(pow2);
      var padded := ZeroPadded(x, n, pow2);
      assert padded[..pow2] == padded[..] == Pad(input, pow2);
      Fft(padded, pow2, w);
      assert padded[..] == padded[..pow2] == Transform(Pad(input, pow2), w);
      CopyPrefix(padded, x, n);
      assert x[..n] == Transform(Pad(input, pow2), w)[..n];
    }

    /** A fresh buffer of length pow2 holding x[0..n) followed by zeros. */
    static method ZeroPadded(x: array<Complex>, n: nat, pow2: nat) returns (padded: array<Complex>)
      requires n <= x.Length && n <= pow2
      ensures fresh(padded) && padded[..] == Pad(x[..n], pow2)
    {
      padded := new Complex[pow2];
      for i := 0 to n
        invariant forall j :: 0 <= j < i ==> padded[j] == x[j]
      {
        padded[i] := x[i];
      }
      for i := n to pow2
        invariant forall j :: 0 <= j < n ==> padded[j] == x[j]
        invariant forall j :: n <= j < i ==> padded[j] == Zero
      {
        padded[i] := Zero;
      }
    }

    /** Copies src[0..n) over dst[0..n). */
    static method CopyPrefix(src: array<Complex>, dst: array<Complex>, n: nat)
      requires n <= src.Length && n <= dst.Length && src != dst
      modifies dst
      ensures dst[..n] == src[..n] && dst[n..] == old(dst[n..])
    {
      for i := 0 to n
        invariant forall j :: 0 <= j < i ==> dst[j] == src[j]
        invariant forall j :: i <= j < dst.Length ==> dst[j] == old(dst[j])
      {
        dst[i] := src[i];
      }
    }

    /** Fresh buffers with the even-indexed and the odd-indexed entries of x[0..n). */
    static method Deinterleave(x: array<Complex>, n: nat) returns (even: array<Complex>, odd: array<Complex>)
      requires n <= x.Length
      ensures fresh(even) && fresh(odd) && even != odd
      ensures even[..] == Evens(x[..n]) && odd[..] == Odds(x[..n])
    {
      var half := n / 2;
      even := new Complex[half];
      odd := new Complex[half];
      for i := 0 to half
        invariant forall j :: 0 <= j < i ==> even[j] == x[2 * j] && odd[j] == x[2 * j + 1]
      {
        even[i] := x[i * 2];
        odd[i] := x[i * 2 + 1];
      }
    }

    /** Writes the butterfly of the two half transforms into x[0..2*half). */
    static method Merge(x: array<Complex>, even: array<Complex>, odd: array<Complex>, w: Twiddle)
      requires even.Length == odd.Length && 2 * even.Length <= x.Length
      requires x != even && x != odd
      modifies x
      ensures x[..2 * even.Length] == Butterfly(even[..], odd[..], w)
      ensures x[2 * even.Length..] == old(x[2 * even.Length..])
    {
      var half := even.Length;
      ghost var merged := Butterfly(even[..], odd[..], w);
      for k := 0 to half
        invariant forall j :: 0 <= j < k ==> x[j] == merged[j]
        invariant forall j :: half <= j < half + k ==> x[j] == merged[j]
        invariant forall j :: 2 * half <= j < x.Length ==> x[j] == old(x[j])
      {
        var t := Mul(w(k, 2 * half), odd[k]);
        x[k] := Add(even[k], t);
        x[k + half] := Sub(even[k], t);
      }
    }
  }

  /** Bin frequencies grow with the bin index for a positive sampling rate. */
  lemma FrequencyIsMonotone(bin1: int, bin2: int, samplingFreq: real, size: int)
    requires samplingFreq > 0.0 && size > 0 && bin1 <= bin2
    ensures FftProcessor.GetFrequency(bin1, samplingFreq, size) <= FftProcessor.GetFrequency(bin2, samplingFreq, size)
  {
    assert bin1 as real * samplingFreq <= bin2 as real * samplingFreq;
  }
}

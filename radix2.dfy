/**
 * The recursive radix-2 Cooley-Tukey transform of FFTProcessor::fft as a
 * function on sequences, with the discrete Fourier transform it computes.
 *
 * Transform follows the recursion exactly: a length of at most one is
 * returned as it is; a length that is not a power of two is zero-padded
 * to the next power of two, transformed, and cut back to its first n
 * entries; a power of two is split into its even and odd entries, both
 * halves are transformed, and the halves are merged by the butterfly.
 */
module Radix2 {
  import opened Numerics

  // ---------------------------------------------------------------------
  // Powers of two and the padding length
  // ---------------------------------------------------------------------

  predicate IsPow2(n: nat)
    decreases n
  {
    n == 1 || (n >= 2 && n % 2 == 0 && IsPow2(n / 2))
  }

  /** The result of doubling p until it is no longer below n. */
  function NextPow2From(p: nat, n: nat): nat
    requires p >= 1
    decreases n - p
  {
    if p >= n then p else NextPow2From(2 * p, n)
  }

  /** The value the loop `pow2 = 1; while (pow2 < n) pow2 *= 2;` leaves. */
  function NextPow2(n: nat): nat {
    NextPow2From(1, n)
  }

  /** Of two distinct powers of two, the larger is at least twice the smaller. */
  lemma {:induction false} Pow2Gap(q: nat, r: nat)
    requires IsPow2(q) && IsPow2(r) && q < r
    ensures 2 * q <= r
    decreases q
  {
    if q >= 2 {
      Pow2Gap(q / 2, r / 2);
    }
  }

  lemma {:induction false} NextPow2FromFacts(p: nat, n: nat)
    requires p >= 1 && IsPow2(p) && (p == 1 || p / 2 < n)
    ensures IsPow2(NextPow2From(p, n))
    ensures NextPow2From(p, n) >= n && NextPow2From(p, n) >= p
    ensures NextPow2From(p, n) == 1 || NextPow2From(p, n) / 2 < n
    decreases n - p
  {
    if p < n {
      assert (2 * p) / 2 == p;
      NextPow2FromFacts(2 * p, n);
    }
  }

  /** The padding length is the least power of two that is at least n. */
  lemma NextPow2IsLeast(n: nat)
    ensures IsPow2(NextPow2(n)) && NextPow2(n) >= n
    ensures forall q: nat :: IsPow2(q) && q >= n ==> NextPow2(n) <= q
  {
    NextPow2FromFacts(1, n);
    var r := NextPow2(n);
    forall q: nat | IsPow2(q) && q >= n
      ensures r <= q
    {
      if q < r {
        Pow2Gap(q, r);
      }
    }
  }

  lemma NextPow2OfPow2(p: nat)
    requires IsPow2(p)
    ensures NextPow2(p) == p
  {
    NextPow2IsLeast(p);
  }

  lemma HalfOfPow2(n: nat)
    requires IsPow2(n) && n >= 2
    ensures n % 2 == 0 && IsPow2(n / 2) && NextPow2(n / 2) == n / 2
  {
    NextPow2OfPow2(n / 2);
  }

  // ---------------------------------------------------------------------
  // The pieces of one level of the recursion
  // ---------------------------------------------------------------------

  /** The padded buffer: s followed by zeros up to length p. */
  function Pad(s: seq<Complex>, p: nat): (r: seq<Complex>)
    requires |s| <= p
    ensures |r| == p && r[..|s|] == s
    ensures forall i :: |s| <= i < p ==> r[i] == Zero
  {
    s + seq(p - |s|, _ => Zero)
  }

  function Evens(s: seq<Complex>): (r: seq<Complex>)
    ensures |r| == |s| / 2
  {
    seq(|s| / 2, i requires 0 <= i < |s| / 2 => s[2 * i])
  }

  function Odds(s: seq<Complex>): (r: seq<Complex>)
    ensures |r| == |s| / 2
  {
    seq(|s| / 2, i requires 0 <= i < |s| / 2 => s[2 * i + 1])
  }

  /**
   * The merge step: with t = w(k, n) * o[k], entry k is e[k] + t and entry
   * k + n/2 is e[k] - t, for n = 2 * |e|.
   */
  function Butterfly(e: seq<Complex>, o: seq<Complex>, w: Twiddle): (r: seq<Complex>)
    requires |e| == |o|
    ensures |r| == 2 * |e|
  {
    var m := |e|;
    seq(2 * m, k requires 0 <= k < 2 * m =>
      if k < m then Add(e[k], Mul(w(k, 2 * m), o[k]))
      else Sub(e[k - m], Mul(w(k - m, 2 * m), o[k - m])))
  }

  /** The two outputs of one butterfly add up to twice its even input. */
  lemma ButterflyPairSum(e: seq<Complex>, o: seq<Complex>, w: Twiddle, k: nat)
    requires |e| == |o| && k < |e|
    ensures Add(Butterfly(e, o, w)[k], Butterfly(e, o, w)[k + |e|]) == Add(e[k], e[k])
  {
    var t := Mul(w(k, 2 * |e|), o[k]);
    assert Butterfly(e, o, w)[k] == Add(e[k], t);
    assert Butterfly(e, o, w)[k + |e|] == Sub(e[k], t);
  }

  // ---------------------------------------------------------------------
  // The transform
  // ---------------------------------------------------------------------

  function Transform(s: seq<Complex>, w: Twiddle): (r: seq<Complex>)
    ensures |r| == |s|
    ensures |s| <= 1 ==> r == s
    decreases NextPow2(|s|), if NextPow2(|s|) == |s| then 0 else 1
  {
    if |s| <= 1 then s
    else if NextPow2(|s|) != |s| then
      var p := NextPow2(|s|);
      NextPow2IsLeast(|s|);
      NextPow2OfPow2(p);
      Transform(Pad(s, p), w)[..|s|]
    else
      NextPow2IsLeast(|s|);
      HalfOfPow2(|s|);
      Butterfly(Transform(Evens(s), w), Transform(Odds(s), w), w)
  }

  // ---------------------------------------------------------------------
  // The discrete Fourier transform
  // ---------------------------------------------------------------------

  /** The first j terms of sum_i s[i] * w(i * k, n). */
  function DftPartial(s: seq<Complex>, k: int, n: int, w: Twiddle, j: nat): Complex
    requires j <= |s|
    decreases j
  {
    if j == 0 then Zero
    else Add(DftPartial(s, k, n, w, j - 1), Mul(s[j - 1], w((j - 1) * k, n)))
  }

  /** Bin k of the |s|-point DFT is sum_j s[j] * w(j * k, |s|). */
  function Dft(s: seq<Complex>, w: Twiddle): (r: seq<Complex>)
    ensures |r| == |s|
  {
    seq(|s|, k requires 0 <= k < |s| => DftPartial(s, k, |s|, w, |s|))
  }

  /** The plain sum of a sequence. */
  function Total(s: seq<Complex>): Complex {
    if |s| == 0 then Zero else Add(Total(s[..|s| - 1]), s[|s| - 1])
  }

  // ---------------------------------------------------------------------
  // The recursion computes the DFT
  // ---------------------------------------------------------------------

  /** The ring identity behind one step of the even/odd split. */
  lemma SplitAlgebra(whole: Complex, before: Complex, a: Complex, b: Complex, a': Complex, b': Complex,
                     t: Complex, u: Complex, e: Complex, o: Complex)
    requires whole == Add(Add(before, Mul(e, u)), Mul(o, Mul(u, t))) && before == Add(a, Mul(t, b))
    requires a' == Add(a, Mul(e, u)) && b' == Add(b, Mul(o, u))
    ensures whole == Add(a', Mul(t, b'))
  {
    MulDistributes(t, b, Mul(o, u));
    MulRotates(t, o, u);
  }

  lemma MulDistributes(t: Complex, b: Complex, c: Complex)
    ensures Mul(t, Add(b, c)) == Add(Mul(t, b), Mul(t, c))
  {
    assert t.re * (b.re + c.re) == t.re * b.re + t.re * c.re;
    assert t.im * (b.im + c.im) == t.im * b.im + t.im * c.im;
    assert t.re * (b.im + c.im) == t.re * b.im + t.re * c.im;
    assert t.im * (b.re + c.re) == t.im * b.re + t.im * c.re;
  }

  lemma MulRotates(t: Complex, o: Complex, u: Complex)
    ensures Mul(t, Mul(o, u)) == Mul(o, Mul(u, t))
  {
    var ou := Mul(o, u);
    var ut := Mul(u, t);
    assert t.re * ou.re - t.im * ou.im == o.re * ut.re - o.im * ut.im;
    assert t.re * ou.im + t.im * ou.re == o.re * ut.im + o.im * ut.re;
  }

  lemma ZeroAlgebra(t: Complex)
    ensures Mul(t, Zero) == Zero && Add(Zero, Zero) == Zero
  {
  }

  lemma HalfTurnAlgebra(x: Complex, t: Complex, y: Complex)
    ensures Add(x, Mul(Mul(t, Neg(One)), y)) == Sub(x, Mul(t, y))
  {
  }

  /** Two more terms of the 2m-point sum: one even entry and one odd entry. */
  lemma SplitStep(s: seq<Complex>, k: int, n: int, w: Twiddle, j: nat)
    requires 2 * j + 2 <= |s|
    ensures DftPartial(s, k, n, w, 2 * j + 2)
         == Add(Add(DftPartial(s, k, n, w, 2 * j), Mul(s[2 * j], w(2 * (j * k), n))),
                Mul(s[2 * j + 1], w(2 * (j * k) + k, n)))
  {
    assert (2 * j) * k == 2 * (j * k);
    assert (2 * j + 1) * k == 2 * (j * k) + k;
  }

  /**
   * Two more terms of the 2m-point sum, with their twiddle factors written
   * through u = w(j*k, m) and t = w(k, 2m).
   */
  lemma SplitStepTwiddled(s: seq<Complex>, k: int, m: nat, w: Twiddle, j: nat) returns (u: Complex)
    requires RootsOfUnity(w) && m >= 1 && |s| == 2 * m && j < m
    ensures u == w(j * k, m)
    ensures DftPartial(s, k, 2 * m, w, 2 * j + 2)
         == Add(Add(DftPartial(s, k, 2 * m, w, 2 * j), Mul(s[2 * j], u)), Mul(s[2 * j + 1], Mul(u, w(k, 2 * m))))
  {
    var a := j * k;
    u := w(a, m);
    SplitStep(s, k, 2 * m, w, j);
    TwiddleHalve(w, a, m);
    TwiddleAdd(w, 2 * a, k, 2 * m);
  }

  /**
   * The first 2i terms of the 2m-point sum split into the first i terms of
   * the m-point sums over the even and the odd entries.
   */
  lemma {:induction false} SplitSum(s: seq<Complex>, k: int, m: nat, w: Twiddle, i: nat)
    requires RootsOfUnity(w) && m >= 1 && |s| == 2 * m && i <= m
    ensures DftPartial(s, k, 2 * m, w, 2 * i)
         == Add(DftPartial(Evens(s), k, m, w, i), Mul(w(k, 2 * m), DftPartial(Odds(s), k, m, w, i)))
  {
    if i > 0 {
      var j := i - 1;
      var e, o, t := Evens(s), Odds(s), w(k, 2 * m);
      SplitSum(s, k, m, w, j);
      var u := SplitStepTwiddled(s, k, m, w, j);
      assert e[j] == s[2 * j] && o[j] == s[2 * j + 1];
      SplitAlgebra(DftPartial(s, k, 2 * m, w, 2 * i), DftPartial(s, k, 2 * m, w, 2 * j),
                   DftPartial(e, k, m, w, j), DftPartial(o, k, m, w, j),
                   DftPartial(e, k, m, w, i), DftPartial(o, k, m, w, i),
                   t, u, s[2 * j], s[2 * j + 1]);
    } else {
      ZeroAlgebra(w(k, 2 * m));
    }
  }

  /** The m-point sums are periodic in the bin index with period m. */
  lemma {:induction false} DftPartialPeriodic(s: seq<Complex>, k: int, m: nat, w: Twiddle, j: nat)
    requires RootsOfUnity(w) && m >= 1 && j <= |s|
    ensures DftPartial(s, k + m, m, w, j) == DftPartial(s, k, m, w, j)
  {
    if j > 0 {
      DftPartialPeriodic(s, k, m, w, j - 1);
      var i := j - 1;
      assert i * (k + m) == i * k + i * m;
      TwiddleAdd(w, i * k, i * m, m);
      TwiddleWholeTurns(w, i, m);
    }
  }

  /** The lower half of one level: bin k < m of the DFT is e[k] + w(k, 2m) * o[k]. */
  lemma ButterflyLowerBin(s: seq<Complex>, w: Twiddle, k: nat)
    requires RootsOfUnity(w) && |s| >= 2 && |s| % 2 == 0 && k < |s| / 2
    ensures Dft(s, w)[k] == Add(Dft(Evens(s), w)[k], Mul(w(k, |s|), Dft(Odds(s), w)[k]))
  {
    SplitSum(s, k, |s| / 2, w, |s| / 2);
  }

  /** The upper half of one level: bin k + m of the DFT is e[k] - w(k, 2m) * o[k]. */
  lemma ButterflyUpperBin(s: seq<Complex>, w: Twiddle, k: nat)
    requires RootsOfUnity(w) && |s| >= 2 && |s| % 2 == 0 && k < |s| / 2
    ensures Dft(s, w)[k + |s| / 2] == Sub(Dft(Evens(s), w)[k], Mul(w(k, |s|), Dft(Odds(s), w)[k]))
  {
    var m := |s| / 2;
    var e, o := Evens(s), Odds(s);
    SplitSum(s, k + m, m, w, m);
    assert Dft(s, w)[k + m]
        == Add(DftPartial(e, k + m, m, w, m), Mul(w(k + m, 2 * m), DftPartial(o, k + m, m, w, m)));
    DftPartialPeriodic(e, k, m, w, m);
    DftPartialPeriodic(o, k, m, w, m);
    TwiddleAdd(w, k, m, 2 * m);
    TwiddleHalfTurn(w, m);
    HalfTurnAlgebra(Dft(e, w)[k], w(k, 2 * m), Dft(o, w)[k]);
  }

  /** One level of the recursion: the butterfly of the halves' DFTs is the DFT. */
  lemma ButterflyOfDfts(s: seq<Complex>, w: Twiddle)
    requires RootsOfUnity(w) && |s| >= 2 && |s| % 2 == 0
    ensures Butterfly(Dft(Evens(s), w), Dft(Odds(s), w), w) == Dft(s, w)
  {
    var m := |s| / 2;
    var r := Butterfly(Dft(Evens(s), w), Dft(Odds(s), w), w);
    forall k | 0 <= k < |s|
      ensures r[k] == Dft(s, w)[k]
    {
      if k < m {
        ButterflyLowerBin(s, w, k);
      } else {
        ButterflyUpperBin(s, w, k - m);
      }
    }
  }

  /** For a power-of-two length the recursion computes the DFT. */
  lemma {:induction false} TransformIsDft(s: seq<Complex>, w: Twiddle)
    requires RootsOfUnity(w) && IsPow2(|s|)
    ensures Transform(s, w) == Dft(s, w)
    decreases |s|
  {
    if |s| == 1 {
      TwiddleUnit(w, 1);
      assert Dft(s, w)[0] == s[0];
    } else {
      NextPow2OfPow2(|s|);
      HalfOfPow2(|s|);
      TransformIsDft(Evens(s), w);
      TransformIsDft(Odds(s), w);
      ButterflyOfDfts(s, w);
    }
  }

  /**
   * For every non-empty input, the result is the first |s| bins of the DFT
   * of s zero-padded to the next power of two (for a power of two the
   * padding is empty and this is the DFT of s itself).
   */
  lemma TransformIsPaddedDft(s: seq<Complex>, w: Twiddle)
    requires RootsOfUnity(w) && |s| >= 1
    ensures NextPow2(|s|) >= |s|
    ensures Transform(s, w) == Dft(Pad(s, NextPow2(|s|)), w)[..|s|]
  {
    NextPow2IsLeast(|s|);
    var p := NextPow2(|s|);
    if p == |s| {
      assert Pad(s, p) == s;
      TransformIsDft(s, w);
    } else {
      NextPow2OfPow2(p);
      TransformIsDft(Pad(s, p), w);
    }
  }

  lemma {:induction false} DftPartialAtZero(s: seq<Complex>, n: int, w: Twiddle, j: nat)
    requires RootsOfUnity(w) && n >= 1 && j <= |s|
    ensures DftPartial(s, 0, n, w, j) == Total(s[..j])
  {
    TwiddleUnit(w, n);
    if j > 0 {
      DftPartialAtZero(s, n, w, j - 1);
      assert s[..j][..j - 1] == s[..j - 1];
    }
  }

  lemma {:induction false} TotalOfPadding(s: seq<Complex>, p: nat)
    requires |s| <= p
    ensures Total(Pad(s, p)) == Total(s)
    decreases p - |s|
  {
    if p > |s| {
      TotalOfPadding(s, p - 1);
      var t := Pad(s, p);
      assert t[..p - 1] == Pad(s, p - 1);
      assert t[p - 1] == Zero;
      assert Total(t) == Add(Total(t[..p - 1]), t[p - 1]);
      assert Total(t) == Add(Total(Pad(s, p - 1)), Zero);
    } else {
      assert Pad(s, p) == s;
    }
  }

  /** Bin 0 is the plain sum of the original inputs, padded or not. */
  lemma DcBinIsTotal(s: seq<Complex>, w: Twiddle)
    requires RootsOfUnity(w) && |s| >= 1
    ensures Transform(s, w)[0] == Total(s)
  {
    if |s| == 1 {
      assert s[..0] == [];
    } else {
      TransformIsPaddedDft(s, w);
      var p := NextPow2(|s|);
      var t := Pad(s, p);
      DftPartialAtZero(t, p, w, p);
      assert t[..p] == t;
      TotalOfPadding(s, p);
    }
  }

  predicate AllZero(s: seq<Complex>) {
    forall i :: 0 <= i < |s| ==> s[i] == Zero
  }

  /** The transform of an all-zero buffer is all zero. */
  lemma {:induction false} TransformOfZero(s: seq<Complex>, w: Twiddle)
    requires AllZero(s)
    ensures AllZero(Transform(s, w))
    decreases NextPow2(|s|), if NextPow2(|s|) == |s| then 0 else 1
  {
    if |s| > 1 {
      NextPow2IsLeast(|s|);
      var p := NextPow2(|s|);
      if p != |s| {
        NextPow2OfPow2(p);
        TransformOfZero(Pad(s, p), w);
      } else {
        HalfOfPow2(|s|);
        TransformOfZero(Evens(s), w);
        TransformOfZero(Odds(s), w);
        var e, o := Transform(Evens(s), w), Transform(Odds(s), w);
        assert Transform(s, w) == Butterfly(e, o, w);
        forall k | 0 <= k < |s|
          ensures Butterfly(e, o, w)[k] == Zero
        {
          var m := |e|;
          if k < m {
            assert e[k] == Zero && o[k] == Zero;
            assert Butterfly(e, o, w)[k] == Add(Zero, Mul(w(k, 2 * m), Zero));
          } else {
            assert e[k - m] == Zero && o[k - m] == Zero;
            assert Butterfly(e, o, w)[k] == Sub(Zero, Mul(w(k - m, 2 * m), Zero));
          }
        }
      }
    }
  }
}

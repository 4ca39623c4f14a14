/**
 * Exact arithmetic that stands in for the single-precision floats of the
 * detector: complex numbers over `real`, and the three primitives that
 * cannot be written over the reals (square root, complex modulus and the
 * twiddle factor e^(-2*pi*i*k/n)). The primitives travel as one value of
 * type MathOps; the ghost predicates below are the only facts about them
 * that the proofs use.
 */
module Numerics {

  datatype Complex = Complex(re: real, im: real)

  const Zero: Complex := Complex(0.0, 0.0)
  const One: Complex := Complex(1.0, 0.0)

  function Add(a: Complex, b: Complex): Complex {
    Complex(a.re + b.re, a.im + b.im)
  }

  function Sub(a: Complex, b: Complex): Complex {
    Complex(a.re - b.re, a.im - b.im)
  }

  function Neg(a: Complex): Complex {
    Complex(-a.re, -a.im)
  }

  function Mul(a: Complex, b: Complex): Complex {
    Complex(a.re * b.re - a.im * b.im, a.re * b.im + a.im * b.re)
  }

  /** A real sample as a complex number with zero imaginary part. */
  function FromReal(x: real): Complex {
    Complex(x, 0.0)
  }

  function Min(a: real, b: real): real {
    if a <= b then a else b
  }

  function Max(a: real, b: real): real {
    if a >= b then a else b
  }

  /** twiddle(k, n) stands for e^(-2*pi*i*k/n). */
  type Twiddle = (int, int) -> Complex

  /** The numeric primitives the detector takes from the C math library. */
  datatype MathOps = MathOps(sqrt: real -> real, modulus: Complex -> real, twiddle: Twiddle)

  ghost predicate SqrtNonNegative(sqrt: real -> real) {
    forall x :: sqrt(x) >= 0.0
  }

  ghost predicate SqrtOfZero(sqrt: real -> real) {
    sqrt(0.0) == 0.0
  }

  ghost predicate ModulusNonNegative(modulus: Complex -> real) {
    forall c :: modulus(c) >= 0.0
  }

  ghost predicate ModulusOfZero(modulus: Complex -> real) {
    modulus(Zero) == 0.0
  }

  /** w(0, n) == 1 and w(n, n) == 1: no turn and one whole turn. */
  ghost predicate UnitRule(w: Twiddle, n: int) {
    n >= 1 ==> w(0, n) == One && w(n, n) == One
  }

  /** w(a + b, n) == w(a, n) * w(b, n): exponents add. */
  ghost predicate AddRule(w: Twiddle, a: int, b: int, n: int) {
    n >= 1 ==> w(a + b, n) == Mul(w(a, n), w(b, n))
  }

  /** w(2a, 2m) == w(a, m): the 2m-th roots at even exponents are the m-th roots. */
  ghost predicate HalveRule(w: Twiddle, a: int, m: int) {
    m >= 1 ==> w(2 * a, 2 * m) == w(a, m)
  }

  /** w(m, 2m) == -1: half a turn. */
  ghost predicate HalfTurnRule(w: Twiddle, m: int) {
    m >= 1 ==> w(m, 2 * m) == Neg(One)
  }

  /**
   * The identities of the n-th roots of unity w(k, n) = e^(-2*pi*i*k/n)
   * that the radix-2 recursion relies on. Each is wrapped in a predicate
   * of its own, so an instance is only produced where a proof asks for it
   * through one of the lemmas below.
   */
  ghost predicate RootsOfUnity(w: Twiddle) {
    && (forall n :: UnitRule(w, n))
    && (forall a, b, n :: AddRule(w, a, b, n))
    && (forall a, m :: HalveRule(w, a, m))
    && (forall m :: HalfTurnRule(w, m))
  }

  lemma TwiddleUnit(w: Twiddle, n: int)
    requires RootsOfUnity(w) && n >= 1
    ensures w(0, n) == One && w(n, n) == One
  {
    assert UnitRule(w, n);
  }

  lemma TwiddleAdd(w: Twiddle, a: int, b: int, n: int)
    requires RootsOfUnity(w) && n >= 1
    ensures w(a + b, n) == Mul(w(a, n), w(b, n))
  {
    assert AddRule(w, a, b, n);
  }

  lemma TwiddleHalve(w: Twiddle, a: int, m: int)
    requires RootsOfUnity(w) && m >= 1
    ensures w(2 * a, 2 * m) == w(a, m)
  {
    assert HalveRule(w, a, m);
  }

  lemma TwiddleHalfTurn(w: Twiddle, m: int)
    requires RootsOfUnity(w) && m >= 1
    ensures w(m, 2 * m) == Neg(One)
  {
    assert HalfTurnRule(w, m);
  }

  /** Every whole number of turns is the identity: w(j*m, m) == 1. */
  lemma {:induction false} TwiddleWholeTurns(w: Twiddle, j: nat, m: int)
    requires RootsOfUnity(w) && m >= 1
    ensures w(j * m, m) == One
  {
    TwiddleUnit(w, m);
    if j > 0 {
      var p := (j - 1) * m;
      TwiddleWholeTurns(w, j - 1, m);
      assert j * m == p + m;
      TwiddleAdd(w, p, m, m);
    }
  }
}

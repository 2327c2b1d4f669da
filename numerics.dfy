/** The numerical library the risk engine calls into (math, scipy, numpy), reduced to
    uninterpreted functions whose only built-in facts are their ranges, plus the
    exact pieces of arithmetic the engine does itself (integer powers, errors). */
module Numerics {

  /** A value in [0, 1], the range of the standard normal CDF. */
  type Probability = p: real | 0.0 <= p <= 1.0

  /** A strictly positive real, the range of exp and of powers of two. */
  type Positive = x: real | 0.0 < x witness 1.0

  /** The foreign functions, each as an arbitrary function with its documented range.
      - exp: math.exp
      - log10: math.log10 (its domain error for non-positive arguments is not modelled)
      - pow2: x |-> 2 ** x
      - normCdf: scipy.stats.norm.cdf
      - quad: first component of scipy.integrate.quad(f, a, b)
      - quantile: numpy.quantile of a sample at one level
      - std: numpy.std of a sample */
  datatype Library = Library(
    exp: real -> Positive,
    log10: real -> real,
    pow2: real -> Positive,
    normCdf: real -> Probability,
    quad: (real -> real, real, real) -> real,
    quantile: (seq<real>, real) -> real,
    std: seq<real> -> real)

  /** math.exp, positive. */
  function Exp(lib: Library, x: real): (r: real)
    ensures r > 0.0
  {
    lib.exp(x)
  }

  /** math.log10 */
  function Log10(lib: Library, x: real): real
  {
    lib.log10(x)
  }

  /** 2 ** x, positive. */
  function Pow2(lib: Library, x: real): (r: real)
    ensures r > 0.0
  {
    lib.pow2(x)
  }

  /** scipy.stats.norm.cdf, a probability. */
  function NormCdf(lib: Library, x: real): (r: real)
    ensures 0.0 <= r <= 1.0
  {
    lib.normCdf(x)
  }

  /** scipy.integrate.quad(f, a, b)[0] */
  function Quad(lib: Library, f: real -> real, a: real, b: real): real
  {
    lib.quad(f, a, b)
  }

  /** exp(0) = 1 */
  predicate ExpAnchored(lib: Library) {
    Exp(lib, 0.0) == 1.0
  }

  ghost predicate ExpIncreasing(lib: Library) {
    forall x: real, y: real :: x < y ==> Exp(lib, x) < Exp(lib, y)
  }

  /** 2 ** 0 = 1 */
  predicate Pow2Anchored(lib: Library) {
    Pow2(lib, 0.0) == 1.0
  }

  ghost predicate Pow2Increasing(lib: Library) {
    forall x: real, y: real :: x < y ==> Pow2(lib, x) < Pow2(lib, y)
  }

  /** The integral of a function with values in [0, 1] over [a, b] lies in [0, b - a]. */
  ghost predicate QuadRespectsUnitBounds(lib: Library) {
    forall f: real -> real, a: real, b: real ::
      a <= b && (forall t: real :: 0.0 <= f(t) <= 1.0) ==> 0.0 <= Quad(lib, f, a, b) <= b - a
  }

  /** Integrating a pointwise smaller function over [a, b] never gives a larger integral. */
  ghost predicate QuadMonotone(lib: Library) {
    forall f: real -> real, g: real -> real, a: real, b: real ::
      a <= b && (forall t: real :: f(t) <= g(t)) ==> Quad(lib, f, a, b) <= Quad(lib, g, a, b)
  }

  /** The pair of empirical quantiles at levels lo and hi (numpy.quantile with a 2-tuple of levels). */
  function Quantiles(lib: Library, xs: seq<real>, lo: real, hi: real): (real, real)
  {
    (lib.quantile(xs, lo), lib.quantile(xs, hi))
  }

  /** numpy.std of a sample */
  function Std(lib: Library, xs: seq<real>): real
  {
    lib.std(xs)
  }

  /** The errors the engine raises itself. */
  datatype Error = PoolSizeError | RetestsError {
    function Message(): string {
      match this
      case PoolSizeError => "pool_size must be an integer of at least 1"
      case RetestsError => "retests must be a positive integer"
    }
  }

  /** A value or the exception raised while computing it. */
  datatype Result<+T> = Ok(value: T) | Err(error: Error) {
    predicate IsFailure() {
      Err?
    }

    function PropagateFailure<U>(): Result<U>
      requires Err?
    {
      Err(error)
    }

    function Extract(): T
      requires Ok?
    {
      value
    }
  }

  /** A Python number: isinstance(v, int) holds only of PyInt values, so 2.0 is not an int. */
  datatype PyNumber = PyInt(i: int) | PyFloat(x: real)

  /** b ** n for an integer exponent n >= 0 */
  function Pow(b: real, n: nat): real
  {
    if n == 0 then 1.0 else b * Pow(b, n - 1)
  }

  /** A power of a probability is a probability. */
  lemma {:induction false} PowInUnitInterval(b: real, n: nat)
    requires 0.0 <= b <= 1.0
    ensures 0.0 <= Pow(b, n) <= 1.0
  {
    if n > 0 {
      PowInUnitInterval(b, n - 1);
      ProductInUnitInterval(b, Pow(b, n - 1));
    }
  }

  /** Raising a probability to a higher power never increases it. */
  lemma {:induction false} PowAntitone(b: real, m: nat, n: nat)
    requires 0.0 <= b <= 1.0
    requires m <= n
    ensures Pow(b, n) <= Pow(b, m)
  {
    if m < n {
      PowAntitone(b, m, n - 1);
      PowInUnitInterval(b, n - 1);
      assert b * Pow(b, n - 1) <= Pow(b, n - 1);
    }
  }

  /** For 0 < b < 1, raising to a higher power strictly decreases the value. */
  lemma {:induction false} PowStrictlyAntitone(b: real, m: nat, n: nat)
    requires 0.0 < b < 1.0
    requires m < n
    ensures Pow(b, n) < Pow(b, m)
  {
    PowStrictStep(b, n);
    if m < n - 1 {
      PowStrictlyAntitone(b, m, n - 1);
    }
  }

  lemma PowStrictStep(b: real, n: nat)
    requires 0.0 < b < 1.0
    requires n >= 1
    ensures Pow(b, n) < Pow(b, n - 1)
  {
    var k: nat := n - 1;
    assert Pow(b, k + 1) == b * Pow(b, k);
    PowPositive(b, k);
    ScaleBelow(b, Pow(b, k));
  }

  lemma ScaleBelow(b: real, p: real)
    requires 0.0 < b < 1.0 && 0.0 < p
    ensures b * p < p
  {
    assert p - b * p == (1.0 - b) * p;
  }

  lemma {:induction false} PowPositive(b: real, n: nat)
    requires 0.0 < b
    ensures 0.0 < Pow(b, n)
  {
    if n > 0 {
      PowPositive(b, n - 1);
    }
  }

  lemma ProductInUnitInterval(a: real, b: real)
    requires 0.0 <= a <= 1.0 && 0.0 <= b <= 1.0
    ensures 0.0 <= a * b <= a && a * b <= b
  {
  }
}

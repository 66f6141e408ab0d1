/** Numbers the feature extractor computes with: complex values, sums, and the
    transcendental functions it takes from `Math`, which the model leaves uninterpreted. */
module DspMath {

  /** `Math.PI`. */
  const Pi: real := 3.141592653589793

  /** The transcendental functions of `Math` the extractor calls. They are parameters of the
      model, so nothing is assumed about their values beyond what a lemma asks for. */
  datatype MathLib = MathLib(
    cos: real -> real,
    sin: real -> real,
    log: real -> real,
    log10: real -> real,
    pow: (real, real) -> real,
    sqrt: real -> real)

  /** The one fact about `sqrt` the normaliser relies on. */
  ghost predicate SqrtIsNonNegative(m: MathLib) {
    forall x :: x >= 0.0 ==> m.sqrt(x) >= 0.0
  }

  /** An FFT output element `{ real, imag }`. */
  datatype Complex = Complex(re: real, im: real)

  const Zero: Complex := Complex(0.0, 0.0)

  function Add(a: Complex, b: Complex): Complex {
    Complex(a.re + b.re, a.im + b.im)
  }

  function Sub(a: Complex, b: Complex): Complex {
    Complex(a.re - b.re, a.im - b.im)
  }

  /** `Math.max(a, b)`. */
  function Max(a: real, b: real): real {
    if a >= b then a else b
  }

  /** `xs.reduce((sum, x) => sum + x, 0)`, folding from the left. */
  function Sum(xs: seq<real>): real {
    if |xs| == 0 then 0.0 else Sum(xs[..|xs| - 1]) + xs[|xs| - 1]
  }

  /** A buffer of `n` zero samples (`new Float32Array(n)`). */
  function Zeros(n: nat): (r: seq<real>)
    ensures |r| == n && forall i | 0 <= i < n :: r[i] == 0.0
  {
    seq(n, _ => 0.0)
  }

  /** A sum of non-negative values is non-negative. */
  lemma {:induction false} SumNonNegative(xs: seq<real>)
    requires forall i | 0 <= i < |xs| :: xs[i] >= 0.0
    ensures Sum(xs) >= 0.0
  {
    if |xs| > 0 {
      SumNonNegative(xs[..|xs| - 1]);
    }
  }

  /** A sum of `n` copies of `c` is `n * c`. */
  lemma {:induction false} SumConstant(xs: seq<real>, c: real)
    requires forall i | 0 <= i < |xs| :: xs[i] == c
    ensures Sum(xs) == |xs| as real * c
  {
    if |xs| > 0 {
      SumConstant(xs[..|xs| - 1], c);
    }
  }
}

/** The recursive radix-2 Cooley–Tukey transform of `AudioProcessor.fft`
    (js/audio-processor.js:85-126). */
module Fft {
  import opened Wrappers
  import opened DspMath

  /** The error `fft` throws: 'FFT size must be power of 2'. */
  datatype FftError = SizeNotPowerOfTwo

  /** n is reached from 1 by doubling: halving it never meets an odd number above 1. */
  predicate IsPowerOfTwo(n: nat)
    decreases n
  {
    n == 1 || (n >= 2 && n % 2 == 0 && IsPowerOfTwo(n / 2))
  }

  /** 2^k. */
  function Pow2(k: nat): (r: nat)
    ensures r >= 1
  {
    if k == 0 then 1 else 2 * Pow2(k - 1)
  }

  /** The exponent of a power of two. */
  function Log2(n: nat): (k: nat)
    requires IsPowerOfTwo(n)
    ensures Pow2(k) == n
    decreases n
  {
    if n == 1 then 0 else Log2(n / 2) + 1
  }

  /** Every 2^k passes the halving test. */
  lemma {:induction false} Pow2IsPowerOfTwo(k: nat)
    ensures IsPowerOfTwo(Pow2(k))
  {
    if k > 0 {
      Pow2IsPowerOfTwo(k - 1);
      assert Pow2(k) / 2 == Pow2(k - 1);
    }
  }

  /** The halving test agrees with the closed form: n is a power of two iff n = 2^k. */
  lemma PowerOfTwoIffPow2(n: nat)
    ensures IsPowerOfTwo(n) <==> exists k: nat :: Pow2(k) == n
  {
    if IsPowerOfTwo(n) {
      assert Pow2(Log2(n)) == n;
    }
    if exists k: nat :: Pow2(k) == n {
      var k: nat :| Pow2(k) == n;
      Pow2IsPowerOfTwo(k);
    }
  }

  /** The `even` buffer: samples 0, 2, 4, … of an even-length signal. */
  function Evens(s: seq<real>): (r: seq<real>)
    requires |s| % 2 == 0
    ensures |r| == |s| / 2
  {
    seq(|s| / 2, i requires 0 <= i < |s| / 2 => s[2 * i])
  }

  /** The `odd` buffer: samples 1, 3, 5, … of an even-length signal. */
  function Odds(s: seq<real>): (r: seq<real>)
    requires |s| % 2 == 0
    ensures |r| == |s| / 2
  {
    seq(|s| / 2, i requires 0 <= i < |s| / 2 => s[2 * i + 1])
  }

  /** The twiddle factor `{ cos(angle), sin(angle) }` with angle = −2π·i/n. */
  function Twiddle(i: nat, n: nat, m: MathLib): Complex
    requires n > 0
  {
    var angle := -2.0 * Pi * (i as real) / (n as real);
    Complex(m.cos(angle), m.sin(angle))
  }

  /** `{ tReal, tImag }`: the twiddle factor w times the odd-half value o. */
  function Rotate(w: Complex, o: Complex): Complex {
    Complex(w.re * o.re - w.im * o.im, w.im * o.re + w.re * o.im)
  }

  /** The term the butterfly adds to and subtracts from the even half at position i. */
  function ButterflyTerm(o: seq<Complex>, i: nat, m: MathLib): Complex
    requires i < |o|
  {
    Rotate(Twiddle(i, 2 * |o|, m), o[i])
  }

  /** The `result` array: for i < N/2, result[i] = E[i] + t_i and result[i + N/2] = E[i] − t_i. */
  function Butterfly(e: seq<Complex>, o: seq<Complex>, m: MathLib): (r: seq<Complex>)
    requires |e| == |o|
    ensures |r| == 2 * |e|
  {
    var h := |e|;
    seq(2 * h, k requires 0 <= k < 2 * h =>
      if k < h then Add(e[k], ButterflyTerm(o, k, m)) else Sub(e[k - h], ButterflyTerm(o, k - h, m)))
  }

  /** `fft(signal)`. A length of 0 or 1 returns one element `{ signal[0] || 0, 0 }`; an odd
      length above 1 throws; otherwise the even and odd halves are transformed and combined. So
      the transform succeeds exactly when the length is 0 or a power of two, and then returns
      max(N, 1) values. */
  function FFT(s: seq<real>, m: MathLib): (r: Result<seq<Complex>, FftError>)
    ensures r.Success? <==> (|s| == 0 || IsPowerOfTwo(|s|))
    ensures r.Success? ==> |r.value| == if |s| == 0 then 1 else |s|
    ensures r.Failure? ==> r.error == SizeNotPowerOfTwo
    decreases |s|
  {
    if |s| <= 1 then
      Success([Complex(if |s| == 1 then s[0] else 0.0, 0.0)])
    else if |s| % 2 != 0 then
      Failure(SizeNotPowerOfTwo)
    else
      match FFT(Evens(s), m)
      case Failure(err) => Failure(err)
      case Success(e) =>
        match FFT(Odds(s), m)
        case Failure(err) => Failure(err)
        case Success(o) => Success(Butterfly(e, o, m))
  }

  /** The base case: a signal of length 0 or 1 yields the single value `{ signal[0] || 0, 0 }`. */
  lemma FftBaseCase(s: seq<real>, m: MathLib)
    requires |s| <= 1
    ensures FFT(s, m) == Success([Complex(if |s| == 1 then s[0] else 0.0, 0.0)])
  {
  }

  /** The butterfly: for a power of two N ≥ 2, output i is E[i] + t_i and output i + N/2 is
      E[i] − t_i, where E and O are the transforms of the even and odd samples and t_i is
      O[i] rotated by the twiddle factor for i/N. */
  lemma FftButterfly(s: seq<real>, m: MathLib, i: nat)
    requires |s| >= 2 && IsPowerOfTwo(|s|)
    requires i < |s| / 2
    ensures FFT(Evens(s), m).Success? && FFT(Odds(s), m).Success?
    ensures var e, o, r := FFT(Evens(s), m).value, FFT(Odds(s), m).value, FFT(s, m).value;
            var t := Rotate(Twiddle(i, |s|, m), o[i]);
            r[i] == Add(e[i], t) && r[i + |s| / 2] == Sub(e[i], t)
  {
  }

  /** The transform of silence is silence: an all-zero signal of length 0 or a power of two
      gives all-zero output. */
  lemma {:induction false} FftOfZeros(s: seq<real>, m: MathLib)
    requires |s| == 0 || IsPowerOfTwo(|s|)
    requires forall i | 0 <= i < |s| :: s[i] == 0.0
    ensures FFT(s, m).Success?
    ensures forall k | 0 <= k < |FFT(s, m).value| :: FFT(s, m).value[k] == Zero
    decreases |s|
  {
    if |s| >= 2 {
      var ev, od := Evens(s), Odds(s);
      FftOfZeros(ev, m);
      FftOfZeros(od, m);
      var e, o := FFT(ev, m).value, FFT(od, m).value;
      assert FFT(s, m).value == Butterfly(e, o, m);
      forall k | 0 <= k < |s|
        ensures FFT(s, m).value[k] == Zero
      {
        var j := if k < |e| then k else k - |e|;
        assert o[j] == Zero && e[j] == Zero;
        assert ButterflyTerm(o, j, m) == Zero;
        assert Butterfly(e, o, m)[k] == if k < |e| then Add(e[j], Zero) else Sub(e[j], Zero);
      }
    }
  }
}

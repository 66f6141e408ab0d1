/** `AudioProcessor.normalizeSpectrogram` (js/audio-processor.js:193-204): rescale every value
    by the mean and population standard deviation of the flattened spectrogram. */
module Normalizer {
  import opened DspMath

  /** The epsilon added to the standard deviation. */
  const Epsilon: real := 0.00000001

  /** `spectrogram.flat()`: the frames' values in order. */
  function Flatten(s: seq<seq<real>>): (flat: seq<real>) {
    if |s| == 0 then [] else Flatten(s[..|s| - 1]) + s[|s| - 1]
  }

  /** The population mean. */
  function Mean(xs: seq<real>): real
    requires |xs| > 0
  {
    Sum(xs) / |xs| as real
  }

  /** The squared deviations `Math.pow(val - mean, 2)`. */
  function SquaredDeviations(xs: seq<real>, mean: real): (r: seq<real>)
    ensures |r| == |xs|
  {
    seq(|xs|, i requires 0 <= i < |xs| => (xs[i] - mean) * (xs[i] - mean))
  }

  /** The population variance. */
  function Variance(xs: seq<real>): real
    requires |xs| > 0
  {
    Sum(SquaredDeviations(xs, Mean(xs))) / |xs| as real
  }

  /** `frame.map(val => (val - mean) / denominator)`. */
  function Rescale(frame: seq<real>, mean: real, denominator: real): (r: seq<real>)
    requires denominator != 0.0
    ensures |r| == |frame|
  {
    seq(|frame|, j requires 0 <= j < |frame| => (frame[j] - mean) / denominator)
  }

  /** The denominator std + 1e-8. */
  function Denominator(xs: seq<real>, m: MathLib): real
    requires |xs| > 0
  {
    m.sqrt(Variance(xs)) + Epsilon
  }

  /** `normalizeSpectrogram`. Zero frames give []. When every frame is empty the flattened
      array is empty and each frame maps to itself. `sqrt` is only assumed to be non-negative,
      which makes the denominator positive. */
  function NormalizeSpectrogram(s: seq<seq<real>>, m: MathLib): (r: seq<seq<real>>)
    requires SqrtIsNonNegative(m)
    ensures |r| == |s|
    ensures forall i | 0 <= i < |s| :: |r[i]| == |s[i]|
  {
    if |s| == 0 then []
    else
      var flat := Flatten(s);
      if |flat| == 0 then s
      else
        DenominatorPositive(flat, m);
        var mean, denominator := Mean(flat), Denominator(flat, m);
        seq(|s|, i requires 0 <= i < |s| => Rescale(s[i], mean, denominator))
  }

  /** Every value of a non-empty spectrogram becomes (v − mean) / (std + 1e-8), with mean and std
      taken over all its values. */
  lemma NormalizedValue(s: seq<seq<real>>, m: MathLib, i: nat, j: nat)
    requires SqrtIsNonNegative(m)
    requires i < |s| && j < |s[i]|
    ensures |Flatten(s)| > 0 && Denominator(Flatten(s), m) > 0.0
    ensures NormalizeSpectrogram(s, m)[i][j] == (s[i][j] - Mean(Flatten(s))) / Denominator(Flatten(s), m)
  {
    FlattenNonEmpty(s, i, j);
    DenominatorPositive(Flatten(s), m);
  }

  lemma {:induction false} FlattenLength(s: seq<seq<real>>, i: nat)
    requires i < |s|
    ensures |Flatten(s)| >= |s[i]|
  {
    if i < |s| - 1 {
      FlattenLength(s[..|s| - 1], i);
    }
  }

  lemma FlattenNonEmpty(s: seq<seq<real>>, i: nat, j: nat)
    requires i < |s| && j < |s[i]|
    ensures |Flatten(s)| > 0
  {
    FlattenLength(s, i);
  }

  /** The variance is a mean of squares, so it is never negative. */
  lemma VarianceNonNegative(xs: seq<real>)
    requires |xs| > 0
    ensures Variance(xs) >= 0.0
  {
    SumNonNegative(SquaredDeviations(xs, Mean(xs)));
  }

  /** std ≥ 0, so the denominator std + 1e-8 is strictly positive: nothing is divided by zero. */
  lemma DenominatorPositive(xs: seq<real>, m: MathLib)
    requires SqrtIsNonNegative(m) && |xs| > 0
    ensures Denominator(xs, m) > 0.0
  {
    VarianceNonNegative(xs);
  }

  /** Flattening commutes with rescaling every frame. */
  lemma {:induction false} FlattenRescale(s: seq<seq<real>>, mean: real, d: real)
    requires d != 0.0
    ensures Flatten(seq(|s|, i requires 0 <= i < |s| => Rescale(s[i], mean, d))) == Rescale(Flatten(s), mean, d)
  {
    var r := seq(|s|, i requires 0 <= i < |s| => Rescale(s[i], mean, d));
    if |s| > 0 {
      var init := s[..|s| - 1];
      FlattenRescale(init, mean, d);
      assert r[..|s| - 1] == seq(|init|, i requires 0 <= i < |init| => Rescale(init[i], mean, d));
      assert Rescale(Flatten(s), mean, d) == Rescale(Flatten(init), mean, d) + Rescale(s[|s| - 1], mean, d);
    }
  }

  /** Σ (x − mean) / d = (Σ x − n · mean) / d. */
  lemma {:induction false} SumRescale(xs: seq<real>, mean: real, d: real)
    requires d != 0.0
    ensures Sum(Rescale(xs, mean, d)) == (Sum(xs) - |xs| as real * mean) / d
  {
    if |xs| > 0 {
      var init := xs[..|xs| - 1];
      SumRescale(init, mean, d);
      assert Rescale(xs, mean, d)[..|xs| - 1] == Rescale(init, mean, d);
      var a, b, x := Sum(init), |init| as real, xs[|xs| - 1];
      assert (a - b * mean) / d + (x - mean) / d == ((a + x) - (b + 1.0) * mean) / d;
    }
  }

  /** The flattened output sums to zero: its mean is exactly 0 (in exact arithmetic). */
  lemma NormalizedSumIsZero(s: seq<seq<real>>, m: MathLib)
    requires SqrtIsNonNegative(m)
    ensures Sum(Flatten(NormalizeSpectrogram(s, m))) == 0.0
  {
    if |s| > 0 && |Flatten(s)| > 0 {
      var flat := Flatten(s);
      DenominatorPositive(flat, m);
      var mean, d := Mean(flat), Denominator(flat, m);
      var r := seq(|s|, i requires 0 <= i < |s| => Rescale(s[i], mean, d));
      assert NormalizeSpectrogram(s, m) == r;
      FlattenRescale(s, mean, d);
      CenteredSumIsZero(flat, d);
    } else if |s| > 0 {
      assert Flatten(NormalizeSpectrogram(s, m)) == [];
    }
  }

  /** Values centred on their mean sum to zero, whatever the scale. */
  lemma CenteredSumIsZero(xs: seq<real>, d: real)
    requires |xs| > 0 && d != 0.0
    ensures Sum(Rescale(xs, Mean(xs), d)) == 0.0
  {
    SumRescale(xs, Mean(xs), d);
    CenteredTotalIsZero(Sum(xs), |xs| as real, Mean(xs), d);
  }

  lemma CenteredTotalIsZero(total: real, n: real, mean: real, d: real)
    requires n > 0.0 && d != 0.0 && mean == total / n
    ensures (total - n * mean) / d == 0.0
  {
    assert n * mean == total;
  }

  /** A constant spectrogram normalises to all zeros: no NaN, thanks to the epsilon. */
  lemma ConstantNormalizesToZero(s: seq<seq<real>>, m: MathLib, c: real)
    requires SqrtIsNonNegative(m)
    requires forall i, j | 0 <= i < |s| && 0 <= j < |s[i]| :: s[i][j] == c
    ensures forall i, j | 0 <= i < |s| && 0 <= j < |s[i]| :: NormalizeSpectrogram(s, m)[i][j] == 0.0
  {
    forall i, j | 0 <= i < |s| && 0 <= j < |s[i]|
      ensures NormalizeSpectrogram(s, m)[i][j] == 0.0
    {
      NormalizedValue(s, m, i, j);
      var flat := Flatten(s);
      FlattenConstant(s, c);
      SumConstant(flat, c);
      MeanOfConstant(|flat| as real, c);
      assert Mean(flat) == c;
    }
  }

  lemma MeanOfConstant(n: real, c: real)
    requires n > 0.0
    ensures n * c / n == c
  {
  }

  lemma {:induction false} FlattenConstant(s: seq<seq<real>>, c: real)
    requires forall i, j | 0 <= i < |s| && 0 <= j < |s[i]| :: s[i][j] == c
    ensures forall k | 0 <= k < |Flatten(s)| :: Flatten(s)[k] == c
  {
    if |s| > 0 {
      FlattenConstant(s[..|s| - 1], c);
    }
  }
}

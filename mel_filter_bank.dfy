/** The triangular mel filter bank of `AudioProcessor.createMelFilterBank` and its use in
    `applyMelFilterBank` (js/audio-processor.js:134-191). */
module MelFilterBank {
  import opened DspMath

  /** `melBins`: filters per bank. */
  const MelBins: nat := 128

  /** The clamp `applyMelFilterBank` applies before the logarithm. */
  const LogFloor: real := 0.0000000001

  /** `hzToMel`: 2595 · log10(1 + hz / 700); 0 Hz is 0 mel. */
  function HzToMel(hz: real, m: MathLib): (mel: real)
    ensures m.log10(1.0) == 0.0 ==> (hz == 0.0 ==> mel == 0.0)
  {
    2595.0 * m.log10(1.0 + hz / 700.0)
  }

  /** `melToHz`: 700 · (10^(mel / 2595) − 1); 0 mel is 0 Hz. */
  function MelToHz(mel: real, m: MathLib): (hz: real)
    ensures m.pow(10.0, 0.0) == 1.0 ==> (mel == 0.0 ==> hz == 0.0)
  {
    700.0 * (m.pow(10.0, mel / 2595.0) - 1.0)
  }

  /** 10^x undoes log10 on positive arguments. */
  ghost predicate PowInvertsLog10(m: MathLib) {
    forall y | y > 0.0 :: m.pow(10.0, m.log10(y)) == y
  }

  /** log10 undoes 10^x. */
  ghost predicate Log10InvertsPow(m: MathLib) {
    forall x :: m.log10(m.pow(10.0, x)) == x
  }

  /** melToHz inverts hzToMel above −700 Hz, where the logarithm is defined. */
  lemma MelToHzInvertsHzToMel(hz: real, m: MathLib)
    requires hz > -700.0 && PowInvertsLog10(m)
    ensures MelToHz(HzToMel(hz, m), m) == hz
  {
    var y := 1.0 + hz / 700.0;
    var mel := 2595.0 * m.log10(y);
    assert mel / 2595.0 == m.log10(y);
    assert m.pow(10.0, m.log10(y)) == y;
  }

  /** hzToMel inverts melToHz. */
  lemma HzToMelInvertsMelToHz(mel: real, m: MathLib)
    requires Log10InvertsPow(m)
    ensures HzToMel(MelToHz(mel, m), m) == mel
  {
    var p := m.pow(10.0, mel / 2595.0);
    assert 1.0 + 700.0 * (p - 1.0) / 700.0 == p;
    assert m.log10(p) == mel / 2595.0;
  }

  /** Mel point i of numFilters + 2: minMel + (maxMel − minMel) · i / (numFilters + 1). */
  function MelPoint(minMel: real, maxMel: real, numFilters: nat, i: nat): real {
    minMel + (maxMel - minMel) * (i as real) / ((numFilters + 1) as real)
  }

  /** The `melPoints` loop: numFilters + 2 points running from minMel to maxMel in equal steps. */
  method MelPoints(minMel: real, maxMel: real, numFilters: nat) returns (pts: seq<real>)
    ensures |pts| == numFilters + 2
    ensures pts[0] == minMel && pts[numFilters + 1] == maxMel
    ensures forall i | 0 <= i < numFilters + 1 ::
      pts[i + 1] - pts[i] == (maxMel - minMel) / ((numFilters + 1) as real)
    ensures forall i | 0 <= i < |pts| :: pts[i] == MelPoint(minMel, maxMel, numFilters, i)
  {
    pts := [];
    var i := 0;
    while i <= numFilters + 1
      invariant 0 <= i <= numFilters + 2
      invariant |pts| == i
      invariant forall k | 0 <= k < i :: pts[k] == MelPoint(minMel, maxMel, numFilters, k)
    {
      pts := pts + [MelPoint(minMel, maxMel, numFilters, i)];
      i := i + 1;
    }
    MelPointEnds(minMel, maxMel, numFilters);
    forall i | 0 <= i < numFilters + 1
      ensures pts[i + 1] - pts[i] == (maxMel - minMel) / ((numFilters + 1) as real)
    {
      MelPointStep(minMel, maxMel, numFilters, i);
    }
  }

  lemma MelPointStep(minMel: real, maxMel: real, numFilters: nat, i: nat)
    ensures MelPoint(minMel, maxMel, numFilters, i + 1) - MelPoint(minMel, maxMel, numFilters, i)
            == (maxMel - minMel) / ((numFilters + 1) as real)
  {
    var d, q, x := maxMel - minMel, (numFilters + 1) as real, i as real;
    assert d * (x + 1.0) == d * x + d;
    assert (d * x + d) / q == (d * x) / q + d / q;
  }

  lemma MelPointEnds(minMel: real, maxMel: real, numFilters: nat)
    ensures MelPoint(minMel, maxMel, numFilters, 0) == minMel
    ensures MelPoint(minMel, maxMel, numFilters, numFilters + 1) == maxMel
  {
    var d, q := maxMel - minMel, (numFilters + 1) as real;
    assert d * q / q == d;
  }

  /** `binPoints[i]`: ⌊(fftBins + 1) · hz_i / (sampleRate / 2)⌋ for the i-th mel point, the
      points spanning hzToMel(0) to hzToMel(sampleRate / 2). */
  function BinPoint(numFilters: nat, fftBins: nat, sampleRate: real, m: MathLib, i: nat): int
    requires sampleRate > 0.0
  {
    var mel := MelPoint(HzToMel(0.0, m), HzToMel(sampleRate / 2.0, m), numFilters, i);
    HzToBin(MelToHz(mel, m), fftBins, sampleRate)
  }

  /** `Math.floor((fftBins + 1) * hz / (sampleRate / 2))`. */
  function HzToBin(hz: real, fftBins: nat, sampleRate: real): (bin: int)
    requires sampleRate > 0.0
    ensures hz >= 0.0 ==> bin >= 0
    ensures hz == sampleRate / 2.0 ==> bin == fftBins + 1
  {
    var scaled := ((fftBins + 1) as real) * hz / (sampleRate / 2.0);
    assert hz >= 0.0 ==> scaled >= 0.0 by {
      if hz >= 0.0 {
        PositiveQuotient(((fftBins + 1) as real) * hz, sampleRate / 2.0);
      }
    }
    assert hz == sampleRate / 2.0 ==> scaled == (fftBins + 1) as real by {
      if hz == sampleRate / 2.0 {
        QuotientOfMultiple((fftBins + 1) as real, sampleRate / 2.0);
      }
    }
    scaled.Floor
  }

  /** a · b / b is a when b is positive. */
  lemma QuotientOfMultiple(a: real, b: real)
    requires b > 0.0
    ensures a * b / b == a
  {
  }

  /** A non-negative number over a positive one is non-negative. */
  lemma PositiveQuotient(a: real, b: real)
    requires a >= 0.0 && b > 0.0
    ensures a / b >= 0.0
  {
  }

  /** Multiplying by a positive constant keeps order. */
  lemma ScaleMonotone(c: real, a: real, b: real)
    requires c > 0.0 && a <= b
    ensures c * a <= c * b
  {
    assert c * b - c * a == c * (b - a);
  }

  /** Floor keeps order. */
  lemma FloorMonotone(x: real, y: real)
    requires x <= y
    ensures x.Floor <= y.Floor
  {
    assert (x.Floor as real) <= x && y < (y.Floor as real) + 1.0;
  }

  /** Higher frequencies never map to lower bins. */
  lemma HzToBinMonotone(hz1: real, hz2: real, fftBins: nat, sampleRate: real)
    requires sampleRate > 0.0 && hz1 <= hz2
    ensures HzToBin(hz1, fftBins, sampleRate) <= HzToBin(hz2, fftBins, sampleRate)
  {
    var c := ((fftBins + 1) as real) / (sampleRate / 2.0);
    assert c > 0.0;
    assert ((fftBins + 1) as real) * hz1 / (sampleRate / 2.0) == c * hz1;
    assert ((fftBins + 1) as real) * hz2 / (sampleRate / 2.0) == c * hz2;
    ScaleMonotone(c, hz1, hz2);
    FloorMonotone(c * hz1, c * hz2);
  }

  /** The numFilters + 2 bin points of a bank. */
  function BinPoints(numFilters: nat, fftBins: nat, sampleRate: real, m: MathLib): (b: seq<int>)
    requires sampleRate > 0.0
    ensures |b| == numFilters + 2
  {
    seq(numFilters + 2, i requires 0 <= i < numFilters + 2 => BinPoint(numFilters, fftBins, sampleRate, m, i))
  }

  /** Weight of bin j in filter i (1 ≤ i ≤ numFilters) built from bin points b: the falling ramp
      (b[i+1] − j) / (b[i+1] − b[i]) on [b[i], b[i+1]), which the second loop writes last, else
      the rising ramp (j − b[i−1]) / (b[i] − b[i−1]) on [b[i−1], b[i]), else 0. */
  function FilterWeight(b: seq<int>, i: nat, j: int): real
    requires 1 <= i && i + 1 < |b|
  {
    if b[i] <= j < b[i + 1] then (b[i + 1] - j) as real / (b[i + 1] - b[i]) as real
    else if b[i - 1] <= j < b[i] then (j - b[i - 1]) as real / (b[i] - b[i - 1]) as real
    else 0.0
  }

  /** Filter i over fftBins bins. */
  function Filter(b: seq<int>, i: nat, fftBins: nat): (f: seq<real>)
    requires 1 <= i && i + 1 < |b|
    ensures |f| == fftBins
  {
    seq(fftBins, j requires 0 <= j < fftBins => FilterWeight(b, i, j))
  }

  /** The bank `createMelFilterBank(numFilters, fftBins, sampleRate)` returns. */
  function Bank(numFilters: nat, fftBins: nat, sampleRate: real, m: MathLib): (bank: seq<seq<real>>)
    requires sampleRate > 0.0
    ensures |bank| == numFilters
    ensures forall i | 0 <= i < numFilters :: |bank[i]| == fftBins
  {
    var b := BinPoints(numFilters, fftBins, sampleRate, m);
    seq(numFilters, i requires 0 <= i < numFilters => Filter(b, i + 1, fftBins))
  }

  /** Every weight lies in [0, 1], whatever the order of the bin points. */
  lemma WeightInUnitInterval(b: seq<int>, i: nat, j: int)
    requires 1 <= i && i + 1 < |b|
    ensures 0.0 <= FilterWeight(b, i, j) <= 1.0
  {
    if b[i] <= j < b[i + 1] {
      RatioInUnitInterval(b[i + 1] - j, b[i + 1] - b[i]);
    } else if b[i - 1] <= j < b[i] {
      RatioInUnitInterval(j - b[i - 1], b[i] - b[i - 1]);
    }
  }

  lemma RatioInUnitInterval(a: int, d: int)
    requires 0 <= a <= d && d > 0
    ensures 0.0 <= a as real / d as real <= 1.0
  {
    assert a as real <= d as real;
  }

  /** Bin points that never decrease. */
  predicate NonDecreasing(b: seq<int>) {
    forall k | 0 <= k < |b| - 1 :: b[k] <= b[k + 1]
  }

  /** With non-decreasing bin points, filter i is zero outside [b[i−1], b[i+1]). */
  lemma WeightZeroOutsideSupport(b: seq<int>, i: nat, j: int)
    requires 1 <= i && i + 1 < |b| && NonDecreasing(b)
    requires j < b[i - 1] || b[i + 1] <= j
    ensures FilterWeight(b, i, j) == 0.0
  {
    assert b[i - 1] <= b[i];
  }

  /** The peak: the weight at b[i] is 1 when the falling ramp is not empty. */
  lemma WeightPeak(b: seq<int>, i: nat)
    requires 1 <= i && i + 1 < |b|
    requires b[i] < b[i + 1]
    ensures FilterWeight(b, i, b[i]) == 1.0
  {
  }

  /** Triangular shape, rising edge: the weights do not decrease on [b[i−1], b[i]]. */
  lemma WeightRises(b: seq<int>, i: nat, j1: int, j2: int)
    requires 1 <= i && i + 1 < |b| && NonDecreasing(b)
    requires b[i - 1] <= j1 <= j2 <= b[i] && (j2 < b[i] || b[i] < b[i + 1])
    ensures FilterWeight(b, i, j1) <= FilterWeight(b, i, j2)
  {
    if j2 == b[i] {
      WeightInUnitInterval(b, i, j1);
      WeightPeak(b, i);
    } else {
      DivMonotone(j1 - b[i - 1], j2 - b[i - 1], b[i] - b[i - 1]);
    }
  }

  /** Triangular shape, falling edge: the weights do not increase on [b[i], b[i+1]). */
  lemma WeightFalls(b: seq<int>, i: nat, j1: int, j2: int)
    requires 1 <= i && i + 1 < |b|
    requires b[i] <= j1 <= j2 < b[i + 1]
    ensures FilterWeight(b, i, j1) >= FilterWeight(b, i, j2)
  {
    DivMonotone(b[i + 1] - j2, b[i + 1] - j1, b[i + 1] - b[i]);
  }

  lemma DivMonotone(x: int, y: int, d: int)
    requires x <= y && d > 0
    ensures x as real / d as real <= y as real / d as real
  {
    var q := d as real;
    assert (y as real - x as real) / q >= 0.0;
    assert y as real / q - x as real / q == (y as real - x as real) / q;
  }

  /** One iteration of the filter loop: `new Array(fftBins).fill(0)`, written by the rising loop
      over [b[i−1], b[i]) and then the falling loop over [b[i], b[i+1]), each assigning only bins
      below fftBins. A ramp of width zero runs no iterations, so nothing is divided by zero. */
  method BuildFilter(b: seq<int>, i: nat, fftBins: nat) returns (filter: seq<real>)
    requires 1 <= i && i + 1 < |b|
    ensures filter == Filter(b, i, fftBins)
  {
    var f := new real[fftBins](_ => 0.0);
    var j := b[i - 1];
    while j < b[i]
      invariant b[i - 1] <= j && (j <= b[i] || j == b[i - 1])
      invariant forall x | 0 <= x < fftBins ::
        f[x] == if b[i - 1] <= x < j then (x - b[i - 1]) as real / (b[i] - b[i - 1]) as real else 0.0
      decreases b[i] - j
    {
      if 0 <= j < fftBins {
        f[j] := (j - b[i - 1]) as real / (b[i] - b[i - 1]) as real;
      }
      j := j + 1;
    }
    j := b[i];
    while j < b[i + 1]
      invariant b[i] <= j && (j <= b[i + 1] || j == b[i])
      invariant forall x | 0 <= x < fftBins ::
        f[x] == if b[i] <= x < j then (b[i + 1] - x) as real / (b[i + 1] - b[i]) as real
                else if b[i - 1] <= x < b[i] then (x - b[i - 1]) as real / (b[i] - b[i - 1]) as real
                else 0.0
      decreases b[i + 1] - j
    {
      if 0 <= j < fftBins {
        f[j] := (b[i + 1] - j) as real / (b[i + 1] - b[i]) as real;
      }
      j := j + 1;
    }
    filter := f[..];
  }

  /** The filter loop of `createMelFilterBank`, from the bin points on: filter i − 1 of the
      result is filter i of the bin points, for i = 1 … numFilters. */
  method FiltersFromBinPoints(b: seq<int>, numFilters: nat, fftBins: nat) returns (filters: seq<seq<real>>)
    requires |b| == numFilters + 2
    ensures |filters| == numFilters
    ensures forall i | 0 <= i < numFilters :: filters[i] == Filter(b, i + 1, fftBins)
  {
    filters := [];
    var i := 1;
    while i <= numFilters
      invariant 1 <= i <= numFilters + 1
      invariant |filters| == i - 1
      invariant forall k | 0 <= k < i - 1 :: filters[k] == Filter(b, k + 1, fftBins)
    {
      var filter := BuildFilter(b, i, fftBins);
      filters := filters + [filter];
      i := i + 1;
    }
  }

  /** `createMelFilterBank(numFilters, fftBins, sampleRate)`. */
  method CreateMelFilterBank(numFilters: nat, fftBins: nat, sampleRate: real, m: MathLib)
    returns (filters: seq<seq<real>>)
    requires sampleRate > 0.0
    ensures filters == Bank(numFilters, fftBins, sampleRate, m)
  {
    var minMel := HzToMel(0.0, m);
    var maxMel := HzToMel(sampleRate / 2.0, m);
    var melPoints := MelPoints(minMel, maxMel, numFilters);
    var hzPoints := seq(|melPoints|, k requires 0 <= k < |melPoints| => MelToHz(melPoints[k], m));
    var binPoints := seq(|hzPoints|, k requires 0 <= k < |hzPoints| => HzToBin(hzPoints[k], fftBins, sampleRate));
    ghost var b := BinPoints(numFilters, fftBins, sampleRate, m);
    forall k | 0 <= k < numFilters + 2
      ensures binPoints[k] == b[k]
    {
      assert melPoints[k] == MelPoint(minMel, maxMel, numFilters, k);
    }
    assert binPoints == b;
    filters := FiltersFromBinPoints(binPoints, numFilters, fftBins);
    ghost var bank := Bank(numFilters, fftBins, sampleRate, m);
    forall i | 0 <= i < numFilters
      ensures filters[i] == bank[i]
    {
    }
  }

  /** Σ_j magnitude[j] · weights[j], accumulated left to right like `melSpectrum[i] +=`. */
  function WeightedSum(magnitude: seq<real>, weights: seq<real>, n: nat): real
    requires n <= |magnitude| && n <= |weights|
  {
    if n == 0 then 0.0 else WeightedSum(magnitude, weights, n - 1) + magnitude[n - 1] * weights[n - 1]
  }

  /** The mel frame: log(max(Σ_j magnitude[j] · filter[j], 1e-10)) for every filter of the bank. */
  function MelEnergies(magnitude: seq<real>, bank: seq<seq<real>>, m: MathLib): (r: seq<real>)
    requires forall i | 0 <= i < |bank| :: |bank[i]| == |magnitude|
    ensures |r| == |bank|
  {
    seq(|bank|, i requires 0 <= i < |bank| =>
      m.log(Max(WeightedSum(magnitude, bank[i], |magnitude|), LogFloor)))
  }

  /** `applyMelFilterBank(magnitude)`: builds the 128-filter bank over |magnitude| bins for the
      context's sample rate and returns one clamped log energy per filter. */
  method ApplyMelFilterBank(magnitude: seq<real>, sampleRate: real, m: MathLib) returns (mel: seq<real>)
    requires sampleRate > 0.0
    ensures |mel| == MelBins
    ensures mel == MelEnergies(magnitude, Bank(MelBins, |magnitude|, sampleRate, m), m)
  {
    var melFilters := CreateMelFilterBank(MelBins, |magnitude|, sampleRate, m);
    mel := FilterEnergies(magnitude, melFilters, m);
  }

  /** The accumulation loops of `applyMelFilterBank` over a built bank: `melSpectrum[i] +=
      magnitude[j] * melFilters[i][j]` for every bin, then `Math.log(Math.max(·, 1e-10))`. */
  method FilterEnergies(magnitude: seq<real>, melFilters: seq<seq<real>>, m: MathLib) returns (mel: seq<real>)
    requires forall i | 0 <= i < |melFilters| :: |melFilters[i]| == |magnitude|
    ensures mel == MelEnergies(magnitude, melFilters, m)
  {
    var numFilters, fftBins := |melFilters|, |magnitude|;
    var melSpectrum := new real[numFilters](_ => 0.0);
    var i := 0;
    while i < numFilters
      invariant 0 <= i <= numFilters
      invariant forall k | 0 <= k < i ::
        melSpectrum[k] == m.log(Max(WeightedSum(magnitude, melFilters[k], fftBins), LogFloor))
      invariant forall k | i <= k < numFilters :: melSpectrum[k] == 0.0
    {
      AccumulateFilter(melSpectrum, i, magnitude, melFilters[i]);
      melSpectrum[i] := m.log(Max(melSpectrum[i], LogFloor));
      i := i + 1;
    }
    mel := melSpectrum[..];
    ghost var spec := MelEnergies(magnitude, melFilters, m);
    assert |mel| == |spec|;
    forall k | 0 <= k < numFilters
      ensures mel[k] == spec[k]
    {
    }
  }

  /** The inner loop of `applyMelFilterBank`: adds magnitude[j] · filter[j] into
      melSpectrum[i] for every bin j, leaving the other entries alone. */
  method AccumulateFilter(melSpectrum: array<real>, i: nat, magnitude: seq<real>, filter: seq<real>)
    requires i < melSpectrum.Length && |filter| == |magnitude|
    modifies melSpectrum
    ensures melSpectrum[i] == old(melSpectrum[i]) + WeightedSum(magnitude, filter, |magnitude|)
    ensures forall k | 0 <= k < melSpectrum.Length && k != i :: melSpectrum[k] == old(melSpectrum[k])
  {
    var j := 0;
    while j < |magnitude|
      invariant 0 <= j <= |magnitude|
      invariant melSpectrum[i] == old(melSpectrum[i]) + WeightedSum(magnitude, filter, j)
      invariant forall k | 0 <= k < melSpectrum.Length && k != i :: melSpectrum[k] == old(melSpectrum[k])
    {
      melSpectrum[i] := melSpectrum[i] + magnitude[j] * filter[j];
      j := j + 1;
    }
  }

  /** A silent frame: with all-zero magnitudes every mel value is log(1e-10). */
  lemma {:induction false} SilentMelEnergies(magnitude: seq<real>, bank: seq<seq<real>>, m: MathLib)
    requires forall i | 0 <= i < |bank| :: |bank[i]| == |magnitude|
    requires forall j | 0 <= j < |magnitude| :: magnitude[j] == 0.0
    ensures forall i | 0 <= i < |bank| :: MelEnergies(magnitude, bank, m)[i] == m.log(LogFloor)
  {
    forall i | 0 <= i < |bank|
      ensures MelEnergies(magnitude, bank, m)[i] == m.log(LogFloor)
    {
      WeightedSumOfZeros(magnitude, bank[i], |magnitude|);
      assert Max(WeightedSum(magnitude, bank[i], |magnitude|), LogFloor) == LogFloor;
    }
  }

  lemma {:induction false} WeightedSumOfZeros(magnitude: seq<real>, weights: seq<real>, n: nat)
    requires n <= |magnitude| && n <= |weights|
    requires forall j | 0 <= j < |magnitude| :: magnitude[j] == 0.0
    ensures WeightedSum(magnitude, weights, n) == 0.0
  {
    if n > 0 {
      WeightedSumOfZeros(magnitude, weights, n - 1);
    }
  }
}

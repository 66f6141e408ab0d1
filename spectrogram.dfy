/** `AudioProcessor.computeSpectrogram` and `computeMagnitude` (js/audio-processor.js:63-83,
    128-132): Hann-windowed 1024-sample frames every 512 samples, each transformed, reduced to
    magnitudes and mapped onto the 128-filter mel bank, then normalised. */
module Spectrogram {
  import opened DspMath
  import opened Strides
  import opened Fft
  import opened MelFilterBank
  import opened Normalizer

  /** `fftSize`: the frame length. */
  const FftSize: nat := 1024
  /** `hopSize`: the distance between frame starts. */
  const HopSize: nat := 512

  /** cos stays within [−1, 1]. */
  ghost predicate CosIsBounded(m: MathLib) {
    forall x :: -1.0 <= m.cos(x) <= 1.0
  }

  /** The Hann weight 0.5 − 0.5·cos(2πj / (N − 1)) at position j of a frame. */
  function HannWeight(j: nat, m: MathLib): real {
    0.5 - 0.5 * m.cos(2.0 * Pi * (j as real) / ((FftSize - 1) as real))
  }

  /** Every Hann weight lies in [0, 1], and the frame's first sample gets weight 0. */
  lemma HannWeightInUnitInterval(j: nat, m: MathLib)
    requires CosIsBounded(m)
    ensures 0.0 <= HannWeight(j, m) <= 1.0
    ensures j == 0 && m.cos(0.0) == 1.0 ==> HannWeight(j, m) == 0.0
  {
    var x := 2.0 * Pi * (j as real) / ((FftSize - 1) as real);
    assert -1.0 <= m.cos(x) <= 1.0;
  }

  /** The frame that starts at offset i, multiplied by the Hann window. */
  function HannFrame(segment: seq<real>, i: nat, m: MathLib): (w: seq<real>)
    requires i + FftSize <= |segment|
    ensures |w| == FftSize
  {
    seq(FftSize, j requires 0 <= j < FftSize => segment[i + j] * HannWeight(j, m))
  }

  /** `computeMagnitude`: √(re² + im²) of every bin. */
  function Magnitudes(spectrum: seq<Complex>, m: MathLib): (r: seq<real>)
    ensures |r| == |spectrum|
  {
    seq(|spectrum|, k requires 0 <= k < |spectrum| =>
      m.sqrt(spectrum[k].re * spectrum[k].re + spectrum[k].im * spectrum[k].im))
  }

  /** The frame size passes `fft`'s power-of-two test, so framing never throws. */
  lemma FftSizeIsPowerOfTwo()
    ensures IsPowerOfTwo(FftSize)
  {
    Pow2IsPowerOfTwo(10);
    assert Pow2(10) == FftSize;
  }

  /** The magnitude spectrum of the frame at offset i: 1024 bins. */
  function FrameMagnitudes(segment: seq<real>, i: nat, m: MathLib): (mag: seq<real>)
    requires i + FftSize <= |segment|
    ensures |mag| == FftSize
  {
    FftSizeIsPowerOfTwo();
    Magnitudes(FFT(HannFrame(segment, i, m), m).value, m)
  }

  /** Frame k of the un-normalised spectrogram: the mel energies of the frame at k · 512. */
  function FrameAt(segment: seq<real>, k: nat, sampleRate: real, m: MathLib): (frame: seq<real>)
    requires sampleRate > 0.0
    requires k < WindowCount(|segment|, FftSize, HopSize)
    ensures |frame| == MelBins
  {
    WindowCountExact(|segment|, FftSize, HopSize, k);
    var mag := FrameMagnitudes(segment, k * HopSize, m);
    MelEnergies(mag, Bank(MelBins, |mag|, sampleRate, m), m)
  }

  /** The frames `computeSpectrogram` collects before normalising: one per whole frame that fits. */
  function RawSpectrogram(segment: seq<real>, sampleRate: real, m: MathLib): (frames: seq<seq<real>>)
    requires sampleRate > 0.0
    ensures |frames| == WindowCount(|segment|, FftSize, HopSize)
  {
    seq(WindowCount(|segment|, FftSize, HopSize),
      k requires 0 <= k < WindowCount(|segment|, FftSize, HopSize) => FrameAt(segment, k, sampleRate, m))
  }

  /** `computeSpectrogram(audioSegment)`: for i = 0, 512, … while a whole frame fits, window,
      transform, take magnitudes and apply the mel bank; then normalise the frames together. The
      result has one frame per window that fits, of 128 values each. */
  method ComputeSpectrogram(audioSegment: seq<real>, sampleRate: real, m: MathLib)
    returns (spectrogram: seq<seq<real>>)
    requires sampleRate > 0.0 && SqrtIsNonNegative(m)
    ensures spectrogram == NormalizeSpectrogram(RawSpectrogram(audioSegment, sampleRate, m), m)
    ensures |spectrogram| == WindowCount(|audioSegment|, FftSize, HopSize)
    ensures forall k | 0 <= k < |spectrogram| :: |spectrogram[k]| == MelBins
  {
    var n := |audioSegment|;
    var spectrograms: seq<seq<real>> := [];
    var i := 0;
    while i + FftSize <= n
      invariant i == |spectrograms| * HopSize
      invariant |spectrograms| <= WindowCount(n, FftSize, HopSize)
      invariant forall k | 0 <= k < |spectrograms| ::
        k < WindowCount(n, FftSize, HopSize) && spectrograms[k] == FrameAt(audioSegment, k, sampleRate, m)
      decreases n - i
    {
      WindowCountExact(n, FftSize, HopSize, |spectrograms|);
      var windowedSegment := WindowFrame(audioSegment, i, m);
      FftSizeIsPowerOfTwo();
      var fftResult := FFT(windowedSegment, m);
      var magnitude := Magnitudes(fftResult.value, m);
      var melFiltered := ApplyMelFilterBank(magnitude, sampleRate, m);
      spectrograms := spectrograms + [melFiltered];
      i := i + HopSize;
    }
    WindowCountExact(n, FftSize, HopSize, |spectrograms|);
    assert spectrograms == RawSpectrogram(audioSegment, sampleRate, m);
    spectrogram := NormalizeSpectrogram(spectrograms, m);
  }

  /** The windowing loop: `windowedSegment[j] = audioSegment[i + j] * hannWindow`. */
  method WindowFrame(audioSegment: seq<real>, i: nat, m: MathLib) returns (windowed: seq<real>)
    requires i + FftSize <= |audioSegment|
    ensures windowed == HannFrame(audioSegment, i, m)
  {
    var windowedSegment := new real[FftSize](_ => 0.0);
    var j := 0;
    while j < FftSize
      invariant 0 <= j <= FftSize
      invariant forall x | 0 <= x < j :: windowedSegment[x] == audioSegment[i + x] * HannWeight(x, m)
    {
      windowedSegment[j] := audioSegment[i + j] * HannWeight(j, m);
      j := j + 1;
    }
    windowed := windowedSegment[..];
    ghost var spec := HannFrame(audioSegment, i, m);
    forall x | 0 <= x < FftSize
      ensures windowed[x] == spec[x]
    {
    }
  }

  /** Magnitudes are never negative. */
  lemma MagnitudesNonNegative(spectrum: seq<Complex>, m: MathLib)
    requires SqrtIsNonNegative(m)
    ensures forall k | 0 <= k < |spectrum| :: Magnitudes(spectrum, m)[k] >= 0.0
  {
    forall k | 0 <= k < |spectrum|
      ensures Magnitudes(spectrum, m)[k] >= 0.0
    {
      var c := spectrum[k];
      assert c.re * c.re + c.im * c.im >= 0.0;
    }
  }

  /** Frame k depends only on the 1024 samples from k · 512: two segments that agree there give
      the same frame. */
  lemma FrameIsLocal(a: seq<real>, b: seq<real>, k: nat, sampleRate: real, m: MathLib)
    requires sampleRate > 0.0
    requires k * HopSize + FftSize <= |a| && k * HopSize + FftSize <= |b|
    requires a[k * HopSize..k * HopSize + FftSize] == b[k * HopSize..k * HopSize + FftSize]
    ensures k < WindowCount(|a|, FftSize, HopSize) && k < WindowCount(|b|, FftSize, HopSize)
    ensures FrameAt(a, k, sampleRate, m) == FrameAt(b, k, sampleRate, m)
  {
    WindowCountExact(|a|, FftSize, HopSize, k);
    WindowCountExact(|b|, FftSize, HopSize, k);
    var wa, wb := HannFrame(a, k * HopSize, m), HannFrame(b, k * HopSize, m);
    forall j | 0 <= j < FftSize
      ensures wa[j] == wb[j]
    {
      assert a[k * HopSize + j] == a[k * HopSize..k * HopSize + FftSize][j];
      assert b[k * HopSize + j] == b[k * HopSize..k * HopSize + FftSize][j];
    }
    assert wa == wb;
  }

  /** A silent frame: zero samples give zero magnitudes in every bin, when √0 = 0. */
  lemma SilentFrameMagnitudes(segment: seq<real>, i: nat, m: MathLib)
    requires i + FftSize <= |segment|
    requires forall j | 0 <= j < |segment| :: segment[j] == 0.0
    requires m.sqrt(0.0) == 0.0
    ensures forall k | 0 <= k < FftSize :: FrameMagnitudes(segment, i, m)[k] == 0.0
  {
    var w := HannFrame(segment, i, m);
    forall j | 0 <= j < |w|
      ensures w[j] == 0.0
    {
      assert segment[i + j] == 0.0;
    }
    FftSizeIsPowerOfTwo();
    FftOfZeros(w, m);
  }

  /** A silent segment: every raw frame value is log(1e-10), and every value of the normalised
      spectrogram is 0 — the constant case, where the epsilon keeps the division defined. */
  lemma SilenceGivesZeroSpectrogram(segment: seq<real>, sampleRate: real, m: MathLib)
    requires sampleRate > 0.0
    requires forall j | 0 <= j < |segment| :: segment[j] == 0.0
    requires m.sqrt(0.0) == 0.0 && SqrtIsNonNegative(m)
    ensures forall k, b | 0 <= k < WindowCount(|segment|, FftSize, HopSize) && 0 <= b < MelBins ::
      RawSpectrogram(segment, sampleRate, m)[k][b] == m.log(LogFloor)
    ensures forall k, b | 0 <= k < WindowCount(|segment|, FftSize, HopSize) && 0 <= b < MelBins ::
      NormalizeSpectrogram(RawSpectrogram(segment, sampleRate, m), m)[k][b] == 0.0
  {
    var raw := RawSpectrogram(segment, sampleRate, m);
    forall k, b | 0 <= k < |raw| && 0 <= b < MelBins
      ensures raw[k][b] == m.log(LogFloor)
    {
      WindowCountExact(|segment|, FftSize, HopSize, k);
      var mag := FrameMagnitudes(segment, k * HopSize, m);
      SilentFrameMagnitudes(segment, k * HopSize, m);
      SilentMelEnergies(mag, Bank(MelBins, |mag|, sampleRate, m), m);
    }
    ConstantNormalizesToZero(raw, m, m.log(LogFloor));
  }

  /** At 44.1 kHz a one-second segment holds 85 frames: (44100 − 1024) / 512 + 1. */
  lemma FramesPerSecondAt44100()
    ensures WindowCount(44100, FftSize, HopSize) == 85
  {
  }
}

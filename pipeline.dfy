/** Dataset assembly and live input: `AudioProcessor.processAudioSamples` and
    `processLiveAudio` (js/audio-processor.js:13-39, 206-218). Decoding (`decodeAudioData`) is
    an input function from a blob's bytes to the decoded buffer, `None` when it fails. */
module Pipeline {
  import opened Wrappers
  import opened DspMath
  import opened Strides
  import opened MelFilterBank
  import opened Normalizer
  import opened Spectrogram
  import opened Segmenter
  import opened AudioTypes
  import opened Sequences

  /** Reading `.value` of a missing `.class-name` input throws outside the `try`. */
  datatype PipelineError = ClassNameMissing(classIndex: nat)

  /** `{ data: processedData, labels }`: one spectrogram per segment and its class index. */
  datatype Dataset = Dataset(data: seq<seq<seq<real>>>, labels: seq<nat>)

  /** A segment length the batch path can step through: positive and even. */
  predicate ValidSegmentLength(sampleRate: real) {
    SegmentLength(sampleRate) > 0 && SegmentLength(sampleRate) % 2 == 0
  }

  /** The usual audio-context rates, 44.1 kHz and 48 kHz, give even one-second segments. */
  lemma CommonRatesAreValid()
    ensures SegmentLength(44100.0) == 44100 && ValidSegmentLength(44100.0)
    ensures SegmentLength(48000.0) == 48000 && ValidSegmentLength(48000.0)
  {
  }

  /** The normalised spectrogram `computeSpectrogram` returns for a segment. */
  function SpectrogramOf(segment: seq<real>, sampleRate: real, m: MathLib): (s: seq<seq<real>>)
    requires sampleRate > 0.0 && SqrtIsNonNegative(m)
  {
    NormalizeSpectrogram(RawSpectrogram(segment, sampleRate, m), m)
  }

  /** The spectrogram of segment k of a decoded buffer. */
  function SegmentSpectrogram(channelData: seq<real>, segmentLength: nat, k: nat, sampleRate: real, m: MathLib): seq<seq<real>>
    requires segmentLength > 0 && segmentLength % 2 == 0 && sampleRate > 0.0 && SqrtIsNonNegative(m)
    requires k < WindowCount(|channelData|, segmentLength, segmentLength / 2)
  {
    WindowCountExact(|channelData|, segmentLength, segmentLength / 2, k);
    SpectrogramOf(SegmentAt(channelData, segmentLength, k), sampleRate, m)
  }

  /** What one sample adds to `processedData`: nothing when decoding fails, otherwise the
      spectrogram of every segment of its first channel. */
  function SampleFeatures(sample: Sample, sampleRate: real, decode: seq<byte> -> Option<AudioBuffer>, m: MathLib): seq<seq<seq<real>>>
    requires ValidSegmentLength(sampleRate) && SqrtIsNonNegative(m)
  {
    var L := SegmentLength(sampleRate);
    match decode(sample.blob)
    case None => []
    case Some(buffer) =>
      var channelData := buffer.channelData;
      seq(WindowCount(|channelData|, L, L / 2),
        k requires 0 <= k < WindowCount(|channelData|, L, L / 2) => SegmentSpectrogram(channelData, L, k, sampleRate, m))
  }

  /** `SampleFeatures` for the context's rate, decoder and maths, as a function of the sample. */
  function FeaturesFn(sampleRate: real, decode: seq<byte> -> Option<AudioBuffer>, m: MathLib): Sample -> seq<seq<seq<real>>>
    requires ValidSegmentLength(sampleRate) && SqrtIsNonNegative(m)
  {
    sample => SampleFeatures(sample, sampleRate, decode, m)
  }

  /** What a class's sample list adds, sample by sample in order. */
  function ClassFeatures(samples: seq<Sample>, sampleRate: real, decode: seq<byte> -> Option<AudioBuffer>, m: MathLib): seq<seq<seq<real>>>
    requires ValidSegmentLength(sampleRate) && SqrtIsNonNegative(m)
  {
    ConcatMap(samples, FeaturesFn(sampleRate, decode, m))
  }

  /** n copies of the class index k. */
  function Repeat(k: nat, n: nat): (r: seq<nat>)
    ensures |r| == n && forall j | 0 <= j < n :: r[j] == k
  {
    seq(n, _ => k)
  }

  /** The dataset the loop has built after the classes of `audioSamples`: absent classes add
      nothing, present class k adds its features, each labelled k. */
  function Assemble(audioSamples: SampleLists, sampleRate: real, decode: seq<byte> -> Option<AudioBuffer>, m: MathLib): (d: Dataset)
    requires ValidSegmentLength(sampleRate) && SqrtIsNonNegative(m)
  {
    if |audioSamples| == 0 then Dataset([], [])
    else
      var prefix := Assemble(audioSamples[..|audioSamples| - 1], sampleRate, decode, m);
      match audioSamples[|audioSamples| - 1]
      case None => prefix
      case Some(samples) =>
        var features := ClassFeatures(samples, sampleRate, decode, m);
        Dataset(prefix.data + features, prefix.labels + Repeat(|audioSamples| - 1, |features|))
  }

  /** Some present class has no `.class-name` input: its index is not below the count. */
  predicate NameMissing(audioSamples: SampleLists, classNameCount: nat) {
    exists k | 0 <= k < |audioSamples| :: audioSamples[k].Some? && k >= classNameCount
  }

  /** `processAudioSamples(audioSamples)`: for each present class, for each sample, decode,
      segment and compute a spectrogram per segment, pushing it with the class index; a sample
      that fails to decode is skipped. The call rejects exactly when a present class has no
      `.class-name` input, naming the first such class. */
  method ProcessAudioSamples(audioSamples: SampleLists, classNameCount: nat, sampleRate: real,
                             decode: seq<byte> -> Option<AudioBuffer>, m: MathLib)
    returns (r: Result<Dataset, PipelineError>)
    requires ValidSegmentLength(sampleRate) && SqrtIsNonNegative(m)
    ensures r.Failure? <==> NameMissing(audioSamples, classNameCount)
    ensures r.Failure? ==>
      var k := r.error.classIndex;
      k < |audioSamples| && audioSamples[k].Some? && k >= classNameCount &&
      !NameMissing(audioSamples[..k], classNameCount)
    ensures r.Success? ==> r.value == Assemble(audioSamples, sampleRate, decode, m)
  {
    var processedData: seq<seq<seq<real>>> := [];
    var labels: seq<nat> := [];
    var classIndex := 0;
    while classIndex < |audioSamples|
      invariant 0 <= classIndex <= |audioSamples|
      invariant Dataset(processedData, labels) == Assemble(audioSamples[..classIndex], sampleRate, decode, m)
      invariant !NameMissing(audioSamples[..classIndex], classNameCount)
    {
      assert audioSamples[..classIndex + 1][..classIndex] == audioSamples[..classIndex];
      if audioSamples[classIndex].Some? {
        if classIndex >= classNameCount {
          return Failure(ClassNameMissing(classIndex));
        }
        var samples := audioSamples[classIndex].value;
        var features := ProcessClass(samples, sampleRate, decode, m);
        processedData := processedData + features;
        labels := labels + Repeat(classIndex, |features|);
      }
      classIndex := classIndex + 1;
    }
    assert audioSamples[..classIndex] == audioSamples;
    return Success(Dataset(processedData, labels));
  }

  /** The sample loop of one class, with the `try`/`catch` around each sample. */
  method ProcessClass(samples: seq<Sample>, sampleRate: real, decode: seq<byte> -> Option<AudioBuffer>, m: MathLib)
    returns (features: seq<seq<seq<real>>>)
    requires ValidSegmentLength(sampleRate) && SqrtIsNonNegative(m)
    ensures features == ClassFeatures(samples, sampleRate, decode, m)
  {
    ghost var f := FeaturesFn(sampleRate, decode, m);
    features := [];
    var s := 0;
    while s < |samples|
      invariant 0 <= s <= |samples|
      invariant features == ConcatMap(samples[..s], f)
    {
      assert samples[..s + 1][..s] == samples[..s];
      var decoded := decode(samples[s].blob);
      if decoded.Some? {
        var spectrograms := ProcessBuffer(decoded.value.channelData, sampleRate, m);
        assert spectrograms == SampleFeatures(samples[s], sampleRate, decode, m);
        features := features + spectrograms;
      }
      s := s + 1;
    }
    assert samples[..s] == samples;
  }

  /** `segmentAudio` on a decoded buffer, then `computeSpectrogram` on every segment. */
  method ProcessBuffer(channelData: seq<real>, sampleRate: real, m: MathLib) returns (spectrograms: seq<seq<seq<real>>>)
    requires ValidSegmentLength(sampleRate) && SqrtIsNonNegative(m)
    ensures var L := SegmentLength(sampleRate);
      |spectrograms| == WindowCount(|channelData|, L, L / 2) &&
      forall k | 0 <= k < |spectrograms| :: spectrograms[k] == SegmentSpectrogram(channelData, L, k, sampleRate, m)
  {
    var L := SegmentLength(sampleRate);
    var segments := SegmentAudio(channelData, L);
    spectrograms := [];
    var t := 0;
    while t < |segments|
      invariant 0 <= t <= |segments|
      invariant |spectrograms| == t
      invariant forall k | 0 <= k < t :: spectrograms[k] == SegmentSpectrogram(channelData, L, k, sampleRate, m)
    {
      var spectrogram := ComputeSpectrogram(segments[t], sampleRate, m);
      spectrograms := spectrograms + [spectrogram];
      t := t + 1;
    }
  }

  /** `processLiveAudio(audioBuffer)`: the spectrogram of the zero-padded or trailing segment
      of one segment length. */
  method ProcessLiveAudio(channelData: seq<real>, sampleRate: real, m: MathLib) returns (spectrogram: seq<seq<real>>)
    requires sampleRate > 0.0 && SqrtIsNonNegative(m)
    ensures spectrogram == SpectrogramOf(LiveWindow(channelData, SegmentLength(sampleRate)), sampleRate, m)
  {
    var segmentLength := SegmentLength(sampleRate);
    var segment := LiveSegment(channelData, segmentLength);
    spectrogram := ComputeSpectrogram(segment, sampleRate, m);
  }

  /** The live spectrogram always has the frame count of one full segment, 128 values each. */
  lemma LiveSpectrogramShape(channelData: seq<real>, sampleRate: real, m: MathLib)
    requires sampleRate > 0.0 && SqrtIsNonNegative(m) && SegmentLength(sampleRate) > 0
    ensures var s := SpectrogramOf(LiveWindow(channelData, SegmentLength(sampleRate)), sampleRate, m);
      |s| == WindowCount(SegmentLength(sampleRate), FftSize, HopSize) &&
      forall k | 0 <= k < |s| :: |s[k]| == MelBins
  {
  }

  /** data and labels stay parallel: one label per spectrogram. */
  lemma {:induction false} DatasetParallel(audioSamples: SampleLists, sampleRate: real, decode: seq<byte> -> Option<AudioBuffer>, m: MathLib)
    requires ValidSegmentLength(sampleRate) && SqrtIsNonNegative(m)
    ensures |Assemble(audioSamples, sampleRate, decode, m).data| == |Assemble(audioSamples, sampleRate, decode, m).labels|
  {
    if |audioSamples| > 0 {
      DatasetParallel(audioSamples[..|audioSamples| - 1], sampleRate, decode, m);
    }
  }

  /** Labels are non-decreasing, and every label is the index of a present class. */
  predicate OrderedPresentLabels(labels: seq<nat>, audioSamples: SampleLists) {
    (forall i, j | 0 <= i <= j < |labels| :: labels[i] <= labels[j]) &&
    (forall i | 0 <= i < |labels| :: labels[i] < |audioSamples| && audioSamples[labels[i]].Some?)
  }

  /** The assembled labels are non-decreasing, and each is the index of a present class. */
  lemma {:induction false} LabelsOrderedAndPresent(audioSamples: SampleLists, sampleRate: real, decode: seq<byte> -> Option<AudioBuffer>, m: MathLib)
    requires ValidSegmentLength(sampleRate) && SqrtIsNonNegative(m)
    ensures OrderedPresentLabels(Assemble(audioSamples, sampleRate, decode, m).labels, audioSamples)
  {
    if |audioSamples| > 0 {
      var last := |audioSamples| - 1;
      var init := audioSamples[..last];
      LabelsOrderedAndPresent(init, sampleRate, decode, m);
      var prefix := Assemble(init, sampleRate, decode, m).labels;
      PrefixLabelsPresent(prefix, audioSamples);
      match audioSamples[last]
      case None =>
      case Some(samples) =>
        AppendClassLabels(prefix, audioSamples, |ClassFeatures(samples, sampleRate, decode, m)|);
    }
  }

  /** Labels fitting all classes but the last are labels of present classes before the last,
      and fit all classes. */
  lemma PrefixLabelsPresent(prefix: seq<nat>, audioSamples: SampleLists)
    requires |audioSamples| > 0
    requires OrderedPresentLabels(prefix, audioSamples[..|audioSamples| - 1])
    ensures OrderedPresentLabels(prefix, audioSamples)
    ensures forall i | 0 <= i < |prefix| :: prefix[i] < |audioSamples| - 1
  {
    var init := audioSamples[..|audioSamples| - 1];
    forall i | 0 <= i < |prefix|
      ensures prefix[i] < |audioSamples| - 1 && audioSamples[prefix[i]].Some?
    {
      assert init[prefix[i]] == audioSamples[prefix[i]];
    }
  }

  /** Appending labels of a present last class to fitting labels of earlier classes keeps them
      fitting. */
  lemma AppendClassLabels(prefix: seq<nat>, audioSamples: SampleLists, n: nat)
    requires |audioSamples| > 0 && audioSamples[|audioSamples| - 1].Some?
    requires OrderedPresentLabels(prefix, audioSamples)
    requires forall i | 0 <= i < |prefix| :: prefix[i] < |audioSamples| - 1
    ensures OrderedPresentLabels(prefix + Repeat(|audioSamples| - 1, n), audioSamples)
  {
    var last := |audioSamples| - 1;
    var labels := prefix + Repeat(last, n);
    forall i | 0 <= i < |labels|
      ensures labels[i] <= last && audioSamples[labels[i]].Some?
      ensures i < |prefix| ==> labels[i] == prefix[i] && labels[i] < last
      ensures i >= |prefix| ==> labels[i] == last
    {
    }
  }

  /** Every spectrogram in the dataset has the frame count of one segment, 128 values each. */
  lemma {:induction false} DatasetShape(audioSamples: SampleLists, sampleRate: real, decode: seq<byte> -> Option<AudioBuffer>, m: MathLib)
    requires ValidSegmentLength(sampleRate) && SqrtIsNonNegative(m)
    ensures forall i | 0 <= i < |Assemble(audioSamples, sampleRate, decode, m).data| ::
      SegmentShaped(SegmentLength(sampleRate), Assemble(audioSamples, sampleRate, decode, m).data[i])
  {
    if |audioSamples| > 0 {
      DatasetShape(audioSamples[..|audioSamples| - 1], sampleRate, decode, m);
      match audioSamples[|audioSamples| - 1]
      case None =>
      case Some(samples) => ClassFeaturesShape(samples, sampleRate, decode, m);
    }
  }

  /** A spectrogram of one full segment: the segment's frame count, 128 values per frame. */
  ghost predicate SegmentShaped(segmentLength: nat, s: seq<seq<real>>) {
    |s| == WindowCount(segmentLength, FftSize, HopSize) &&
    forall k | 0 <= k < |s| :: |s[k]| == MelBins
  }

  lemma ClassFeaturesShape(samples: seq<Sample>, sampleRate: real, decode: seq<byte> -> Option<AudioBuffer>, m: MathLib)
    requires ValidSegmentLength(sampleRate) && SqrtIsNonNegative(m)
    ensures forall i | 0 <= i < |ClassFeatures(samples, sampleRate, decode, m)| ::
      SegmentShaped(SegmentLength(sampleRate), ClassFeatures(samples, sampleRate, decode, m)[i])
  {
    var f, L := FeaturesFn(sampleRate, decode, m), SegmentLength(sampleRate);
    forall x, j | x in samples && 0 <= j < |f(x)|
      ensures SegmentShaped(SegmentLength(sampleRate), f(x)[j])
    {
      assert f(x) == SampleFeatures(x, sampleRate, decode, m);
    }
    ConcatMapAll(samples, f, s => SegmentShaped(L, s));
  }

  /** A sample that fails to decode contributes nothing and the loop goes on: the class's
      features are those of its list without that sample. */
  lemma UndecodableSampleContributesNothing(samples: seq<Sample>, i: nat, sampleRate: real, decode: seq<byte> -> Option<AudioBuffer>, m: MathLib)
    requires ValidSegmentLength(sampleRate) && SqrtIsNonNegative(m)
    requires i < |samples| && decode(samples[i].blob).None?
    ensures ClassFeatures(samples, sampleRate, decode, m) == ClassFeatures(samples[..i] + samples[i + 1..], sampleRate, decode, m)
  {
    var f := FeaturesFn(sampleRate, decode, m);
    assert f(samples[i]) == [];
    ConcatMapSkip(samples, i, f);
  }
}

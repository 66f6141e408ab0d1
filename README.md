# Browser audio classifier: a verified Dafny model

This project models the sequential core of a browser audio classifier. Samples are recorded
or uploaded per class and kept in a per-class store. A training gate requires enough audio
in every class. Decoded audio is turned into per-segment log-mel spectrograms for a dataset
or for live input. Recordings are re-encoded as 16-bit PCM WAV files. The labels of a
pre-trained audio classifier are folded into nine categories by an ordered keyword
classifier. Uploaded files are screened by MIME type, and raw predictions are shown ranked
by score and coloured by score band.

The model follows the JavaScript modules file by file:

- **`js/audio-processor.js`** is the feature extractor.
  - `Segmenter` covers batch segmentation with 50 % overlap, and the live window.
  - `Fft` is the recursive radix-2 transform, with its power-of-two error.
  - `MelFilterBank` builds the 128-filter triangular bank and applies it, including the
    `1e-10` log floor.
  - `Normalizer` covers mean/std normalisation, with the `1e-8` epsilon.
  - `Spectrogram` covers Hann framing at 1024/512 and the magnitudes.
  - `Pipeline` covers dataset assembly and the live path.
  - `Strides` counts the frames of a `for (i = 0; i + w <= n; i += h)` loop.
  - `Sequences` concatenates per-element results.
- **`js/audio-recorder.js`** is the recorder and the sample store.
  - `WavEncoder` is the 44-byte header and the clamped, truncated 16-bit samples, written into
    an array as the `DataView` is.
  - `AudioRecording` holds the `SampleStore` class (`window.audioSamples` and the train
    button) and the `AudioRecorder` state machine.
  - `AudioTypes` holds the shared values.
- **`js/model-trainer.js`** is the classifier.
  - `LabelMapping` is `mapLabelToClass`.
  - `Trainer` holds the `ModelTrainer` class and the score aggregation loop.
- **`js/live-inference.js`** is the uploader and the display: `LiveInference` covers the
  upload type check, the preset MIME choice, the descending sort, the colour bands and
  `AudioUploader.handleFileUpload`.

The code's own form is kept. Index loops are `method`s with loop invariants, most over arrays,
and each is proved equal to a specification function of its inputs. Objects whose fields the
code updates are classes with `modifies` clauses. Expressions (`map`/`reduce`, the recursive
`fft`, the `includes` chain) are functions.

External systems are modelled as parameters:
- Transcendental maths is a `MathLib` value holding `cos`, `sin`, `log`, `log10`, `pow`
  and `sqrt`. Facts about it are never built in; each is a precondition of the members that
  need it:
  - `SqrtIsNonNegative`, for the normaliser.
  - `sqrt(0) = 0`, for the silence lemmas `Spectrogram.SilentFrameMagnitudes` and
    `Spectrogram.SilenceGivesZeroSpectrogram`.
  - `CosIsBounded` (cos within [−1, 1]), for `Spectrogram.HannWeightInUnitInterval`.
  - `PowInvertsLog10` and `Log10InvertsPow`, for the two mel round-trip lemmas.
- `decodeAudioData` is a `seq<byte> -> Option<AudioBuffer>` function.
- The Transformers.js classifier is a function returning `Option` of a result list.
- The clock is an integer `now` argument.
- Microphone permission and model-load success are booleans.
- The sample rate is the audio context's rate.

Proved properties include:
- Segmentation emits exactly the windows that fit, with their contents.
- Every spectrogram frame is 128 wide, a frame depends only on its own 1024 samples, and
  silence normalises to zeros.
- The normalised output sums to zero.
- `fft` fails exactly on non-power-of-two lengths.
- Filter weights lie in [0, 1] and form triangles.
- The dataset's labels stay parallel to its data, are non-decreasing, and are indices of
  present classes.
- WAV header fields read back as written, and samples read back as `trunc(clamp(x)·32767)`.
- Adding or removing a sample changes the class total by exactly its duration.
- The training gate's loop with `break` agrees with its quantified definition.
- The label mapper is the first-match classifier over its nine keyword tests. As a
  consequence, the vehicle keywords 'motorcycle', 'motor vehicle' and 'engine start', the
  'engine'+'frequency' clause, and 'train' (which holds 'rain') can never yield Vehicles.
- Aggregation keeps all known score mass.
- Every preset MIME type passes the upload check.
- The display is a permutation of the raw predictions in non-increasing score order, and
  its colours never brighten down the list.

## Building

All `.dfy` files form one program:
`dafny verify --resource-limit 2000000 --verification-time-limit 120 *.dfy`. The default
30-second limit per proof can be too short on a loaded machine.

## Model

| member | source | states |
|---|---|---|
| Strides.WindowCountExact | js/audio-processor.js:52 | window k is visited by the stride loop exactly when k·hop + width ≤ n |
| Segmenter.SegmentLengthIsFloor | js/audio-processor.js:49 | the segment length L is the floor of the rate: L ≤ rate < L + 1, and L ≥ 0 for a non-negative rate |
| Segmenter.SegmentAt | js/audio-processor.js:53-56 | segment k has L samples, sample j being data[k·L/2 + j] |
| Segmenter.SegmentAudio | js/audio-processor.js:47-61 | no segments when n < L; otherwise one segment for each offset 0, L/2, L, … with offset + L ≤ n, each equal to the L samples at its offset |
| Segmenter.OneSegmentOfExactBuffer | js/audio-processor.js:52-58 | a buffer of exactly L samples gives one segment, the buffer itself |
| Segmenter.ThreeSegmentsOfDoubleBuffer | js/audio-processor.js:52 | a buffer of 2L samples gives three segments |
| Segmenter.LiveWindow | js/audio-processor.js:206-217 | the live segment has L samples whenever L > 0 |
| Segmenter.LiveSegment | js/audio-processor.js:207-216 | short buffer: its samples, then zeros up to L; otherwise the last L samples; for L = 0 the whole buffer (`slice(-0)`) |
| Fft.Pow2IsPowerOfTwo | js/audio-processor.js:86-91 | every 2^k passes the halving test that guards the recursion |
| Fft.PowerOfTwoIffPow2 | js/audio-processor.js:86-91 | the halving test accepts exactly the numbers 2^k |
| Fft.Log2 | js/audio-processor.js:86-102 | a power of two has an exponent k with 2^k = n |
| Fft.Evens | js/audio-processor.js:93-99 | the even half has n/2 samples |
| Fft.Odds | js/audio-processor.js:93-99 | the odd half has n/2 samples |
| Fft.Butterfly | js/audio-processor.js:104-123 | the combined result has twice the half length |
| Fft.FFT | js/audio-processor.js:85-126 | succeeds exactly when the length is 0 or a power of two; then it gives one value for lengths 0 and 1, otherwise one per sample; otherwise it throws the power-of-two error |
| Fft.FftBaseCase | js/audio-processor.js:87 | lengths 0 and 1 give the single value `{signal[0] \|\| 0, 0}` |
| Fft.FftButterfly | js/audio-processor.js:101-123 | for N ≥ 2: both halves transform; output i is E[i] + t_i and output i + N/2 is E[i] − t_i, with t_i the twiddled odd value |
| Fft.FftOfZeros | js/audio-processor.js:85-126 | the transform of an all-zero signal is all zeros |
| MelFilterBank.HzToMel | js/audio-processor.js:185-187 | 0 Hz is 0 mel whenever log10(1) = 0 |
| MelFilterBank.MelToHz | js/audio-processor.js:189-191 | 0 mel is 0 Hz whenever 10^0 = 1 |
| MelFilterBank.MelToHzInvertsHzToMel | js/audio-processor.js:185-191 | melToHz(hzToMel(hz)) = hz for every hz above −700, given that 10^x inverts log10 |
| MelFilterBank.HzToMelInvertsMelToHz | js/audio-processor.js:185-191 | hzToMel(melToHz(mel)) = mel for every mel, given that log10 inverts 10^x |
| MelFilterBank.HzToBin | js/audio-processor.js:162 | a non-negative frequency gives a non-negative bin, and the Nyquist frequency sampleRate / 2 gives bin fftBins + 1 |
| MelFilterBank.HzToBinMonotone | js/audio-processor.js:162 | a higher frequency never maps to a lower bin |
| MelFilterBank.MelPoints | js/audio-processor.js:156-159 | numFilters + 2 points from minMel to maxMel in equal steps |
| MelFilterBank.MelPointStep | js/audio-processor.js:158 | consecutive mel points differ by (maxMel − minMel)/(numFilters + 1) |
| MelFilterBank.MelPointEnds | js/audio-processor.js:158 | the first mel point is minMel and the last is maxMel |
| MelFilterBank.BinPoints | js/audio-processor.js:161-162 | numFilters + 2 bin points |
| MelFilterBank.Filter | js/audio-processor.js:165-177 | each filter has fftBins weights |
| MelFilterBank.Bank | js/audio-processor.js:151-183 | numFilters filters of fftBins weights each |
| MelFilterBank.WeightInUnitInterval | js/audio-processor.js:167-177 | every weight lies in [0, 1], whatever the order of the bin points |
| MelFilterBank.WeightZeroOutsideSupport | js/audio-processor.js:165-177 | with non-decreasing bin points, filter i is zero outside [b[i−1], b[i+1]) |
| MelFilterBank.WeightPeak | js/audio-processor.js:173-177 | the weight at b[i] is 1 when the falling ramp is non-empty |
| MelFilterBank.WeightRises | js/audio-processor.js:167-171 | weights do not decrease on the rising edge |
| MelFilterBank.WeightFalls | js/audio-processor.js:173-177 | weights do not increase on the falling edge |
| MelFilterBank.BuildFilter | js/audio-processor.js:165-177 | the two ramp loops over a zero-filled array build exactly the filter |
| MelFilterBank.FiltersFromBinPoints | js/audio-processor.js:164-180 | the filter loop builds filters 1 … numFilters in order |
| MelFilterBank.CreateMelFilterBank | js/audio-processor.js:151-183 | the method returns exactly the specified bank |
| MelFilterBank.MelEnergies | js/audio-processor.js:139-148 | one log energy per filter |
| MelFilterBank.ApplyMelFilterBank | js/audio-processor.js:134-149 | 128 values, each log(max(Σ magnitude·weight, 1e-10)) over the bank for |magnitude| bins |
| MelFilterBank.FilterEnergies | js/audio-processor.js:139-148 | the accumulate-then-log loops give exactly the mel energies |
| MelFilterBank.AccumulateFilter | js/audio-processor.js:142-144 | the inner loop adds the weighted sum into entry i and leaves the others |
| MelFilterBank.SilentMelEnergies | js/audio-processor.js:139-146 | all-zero magnitudes give log(1e-10) in every band |
| MelFilterBank.WeightedSumOfZeros | js/audio-processor.js:142-144 | a weighted sum over zero magnitudes is zero |
| Normalizer.SquaredDeviations | js/audio-processor.js:198 | one squared deviation per value |
| Normalizer.Rescale | js/audio-processor.js:202 | rescaling keeps the frame length |
| Normalizer.NormalizeSpectrogram | js/audio-processor.js:193-204 | the shape is kept: as many frames, each as long as before |
| Normalizer.NormalizedValue | js/audio-processor.js:196-203 | each value becomes (v − mean)/(std + 1e-8) over all values, and that denominator is positive |
| Normalizer.FlattenLength | js/audio-processor.js:196 | the flattened list is at least as long as any frame |
| Normalizer.FlattenNonEmpty | js/audio-processor.js:196-197 | a spectrogram with a value flattens to a non-empty list |
| Normalizer.VarianceNonNegative | js/audio-processor.js:198 | the variance is never negative |
| Normalizer.DenominatorPositive | js/audio-processor.js:199-202 | std + 1e-8 is strictly positive, so nothing is divided by zero |
| Normalizer.FlattenRescale | js/audio-processor.js:196-203 | flattening commutes with rescaling every frame |
| Normalizer.SumRescale | js/audio-processor.js:202 | Σ (x − mean)/d = (Σ x − n·mean)/d |
| Normalizer.NormalizedSumIsZero | js/audio-processor.js:193-204 | the normalised values sum to zero |
| Normalizer.CenteredSumIsZero | js/audio-processor.js:197-202 | values centred on their mean sum to zero at any scale |
| Normalizer.ConstantNormalizesToZero | js/audio-processor.js:193-204 | a constant spectrogram normalises to all zeros (no NaN, thanks to the epsilon) |
| Normalizer.FlattenConstant | js/audio-processor.js:196 | flattening a constant spectrogram gives that constant everywhere |
| Spectrogram.HannWeightInUnitInterval | js/audio-processor.js:72 | with cos within [−1, 1], every Hann weight lies in [0, 1], and the frame's first sample has weight 0 when cos(0) = 1 |
| Spectrogram.HannFrame | js/audio-processor.js:69-74 | the windowed frame has 1024 samples |
| Spectrogram.Magnitudes | js/audio-processor.js:128-132 | one magnitude per bin |
| Spectrogram.FftSizeIsPowerOfTwo | js/audio-processor.js:85-91 | 1024 passes the power-of-two test, so framing never throws |
| Spectrogram.FrameMagnitudes | js/audio-processor.js:76-77 | each frame has 1024 magnitudes |
| Spectrogram.FrameAt | js/audio-processor.js:68-79 | each frame has 128 mel values |
| Spectrogram.RawSpectrogram | js/audio-processor.js:68-80 | one frame for each window of 1024 at stride 512 that fits |
| Spectrogram.ComputeSpectrogram | js/audio-processor.js:63-83 | the loop gives the normalised raw spectrogram: one frame per fitting window, 128 values each |
| Spectrogram.WindowFrame | js/audio-processor.js:69-74 | the windowing loop gives sample i + j times the Hann weight of j |
| Spectrogram.MagnitudesNonNegative | js/audio-processor.js:128-132 | magnitudes are never negative |
| Spectrogram.FrameIsLocal | js/audio-processor.js:68-79 | frame k depends only on the 1024 samples from k·512 |
| Spectrogram.SilentFrameMagnitudes | js/audio-processor.js:69-77 | a silent frame has zero magnitude in every bin |
| Spectrogram.SilenceGivesZeroSpectrogram | js/audio-processor.js:63-83 | silence gives raw values log(1e-10) and normalised values 0 |
| Spectrogram.FramesPerSecondAt44100 | js/audio-processor.js:4-68 | a one-second segment at 44.1 kHz has 85 frames |
| Sequences.ConcatMapAppend | js/audio-processor.js:22-31 | pushing the results of a + b is pushing those of a, then b |
| Sequences.ConcatMapSkip | js/audio-processor.js:22-34 | an element that adds nothing can be dropped |
| Sequences.ConcatMapAll | js/audio-processor.js:27-31 | a property of every pushed element of each result holds of the whole |
| Pipeline.CommonRatesAreValid | js/audio-processor.js:49 | at 44.1 kHz and 48 kHz the segment length equals the rate and is even, so the batch path's requirement holds |
| Pipeline.Repeat | js/audio-processor.js:30 | n labels, all equal to the class index |
| Pipeline.ProcessAudioSamples | js/audio-processor.js:13-39 | throws exactly when a present class lacks a `.class-name` input, at the first such class; otherwise returns the assembled dataset |
| Pipeline.ProcessClass | js/audio-processor.js:22-35 | the sample loop yields the class's per-sample features in order, skipping samples that fail to decode |
| Pipeline.ProcessBuffer | js/audio-processor.js:25-31 | one spectrogram per segment, in order |
| Pipeline.ProcessLiveAudio | js/audio-processor.js:206-218 | the spectrogram of the padded or trailing one-second window |
| Pipeline.LiveSpectrogramShape | js/audio-processor.js:206-218 | the live spectrogram has one full segment's frame count, 128 values each |
| Pipeline.DatasetParallel | js/audio-processor.js:29-30 | one label per spectrogram |
| Pipeline.LabelsOrderedAndPresent | js/audio-processor.js:17-31 | labels are non-decreasing and each is the index of a present class |
| Pipeline.DatasetShape | js/audio-processor.js:13-39 | every spectrogram in the dataset has one segment's frame count, 128 values per frame |
| Pipeline.ClassFeaturesShape | js/audio-processor.js:22-31 | every spectrogram a class adds is segment-shaped |
| Pipeline.UndecodableSampleContributesNothing | js/audio-processor.js:23-34 | a sample that fails to decode adds nothing, and the loop goes on |
| WavEncoder.Ascii | js/audio-recorder.js:110-114 | one byte per character |
| WavEncoder.U16LE | js/audio-recorder.js:121-133 | two bytes |
| WavEncoder.U32LE | js/audio-recorder.js:117-128 | four bytes |
| WavEncoder.WavHeader | js/audio-recorder.js:116-128 | a 44-byte header |
| WavEncoder.Clamp | js/audio-recorder.js:132 | the clamped sample lies in [−1, 1] |
| WavEncoder.Trunc | js/audio-recorder.js:133 | truncation toward zero: the result lies on x's side of zero, no further from zero than x, and less than 1 away from x |
| WavEncoder.TruncIsOdd | js/audio-recorder.js:133 | trunc(−x) = −trunc(x) |
| WavEncoder.PcmValue | js/audio-recorder.js:132-133 | the stored integer lies in [−32767, 32767] |
| WavEncoder.PcmBytes | js/audio-recorder.js:130-135 | two bytes per sample |
| WavEncoder.WavBytes | js/audio-recorder.js:105-106 | the file is 44 + 2n bytes |
| WavEncoder.AudioBufferToWav | js/audio-recorder.js:104-138 | writing the header and then the sample loop into the buffer gives exactly the specified file |
| WavEncoder.WriteHeader | js/audio-recorder.js:116-128 | the header writes set bytes 0–43 to the header and leave the sample area alone |
| WavEncoder.SetBytes | js/audio-recorder.js:110-114 | the given bytes are written from offset on, and nothing else changes |
| WavEncoder.U16RoundTrip | js/audio-recorder.js:121-126 | a 16-bit field reads back as v mod 2^16 |
| WavEncoder.U32RoundTrip | js/audio-recorder.js:117-128 | a 32-bit field reads back as v mod 2^32 |
| WavEncoder.I16RoundTrip | js/audio-recorder.js:133 | every 16-bit signed value reads back unchanged |
| WavEncoder.WavHeaderLayout | js/audio-recorder.js:116-128 | the header read back: RIFF, 36 + 2n, WAVE, fmt , 16, PCM 1, mono, 44100, 88200, 2, 16, data, 2n |
| WavEncoder.WavSampleLayout | js/audio-recorder.js:130-135 | sample i reads back at 44 + 2i as trunc(clamp(x)·32767) |
| WavEncoder.PcmSaturates | js/audio-recorder.js:132-133 | out-of-range samples saturate at ±32767 |
| AudioRecording.StoreWithSample | js/audio-recorder.js:140-155 | class k's list, created if missing, gains the sample at its end; the array grows to k + 1 if needed; other classes are kept, and new holes stay absent |
| AudioRecording.MeetsTrainingRequirements | js/audio-recorder.js:182-197 | the loop with `break` computes the gate: at least two classes, a store, and every class with at least 8 s |
| AudioRecording.SampleStore.constructor | js/audio-recorder.js:141-143 | no store yet and the train button disabled |
| AudioRecording.SampleStore.CheckTrainingRequirements | js/audio-recorder.js:182-201 | the train button is enabled exactly when the gate holds; the store is untouched |
| AudioRecording.SampleStore.AddSampleToClass | js/audio-recorder.js:140-158 | the store exists and has the sample appended to its class, stamped with now; the button reflects the gate |
| AudioRecording.SampleStore.RemoveSample | js/audio-recorder.js:270-275 | with a store and a list for the class, the list is spliced at the index and the button recomputed; otherwise nothing changes |
| AudioRecording.AddKeepsOtherClasses | js/audio-recorder.js:145-155 | adding touches only its own class |
| AudioRecording.AddAddsDuration | js/audio-recorder.js:155-162 | adding raises the class total by exactly the sample's duration |
| AudioRecording.AddKeepsTrainable | js/audio-recorder.js:155-194 | adding a non-negative-duration sample never closes the gate |
| AudioRecording.SpliceRemovesExactlyOne | js/audio-recorder.js:272 | splicing inside the list removes exactly that element: the others stay in order, and the multiset loses just it |
| AudioRecording.SplicePastEndIsNoOp | js/audio-recorder.js:272 | splicing past the end removes nothing |
| AudioRecording.TotalDurationAppend | js/audio-recorder.js:162-189 | totals of concatenations add up |
| AudioRecording.RemoveSubtractsDuration | js/audio-recorder.js:272 | removing a sample takes exactly its duration off the total |
| AudioRecording.StoreWithSamplesAppends | js/audio-recorder.js:203-218 | uploads append their samples, in order, to the class list |
| AudioRecording.RejectedFileAddsNothing | js/audio-recorder.js:205-216 | a non-`audio/` or undecodable file adds no sample |
| AudioRecording.AudioRecorder.constructor | js/audio-recorder.js:2-9 | no stream, no recorder, not recording, no chunks, no class |
| AudioRecording.AudioRecorder.Initialize | js/audio-recorder.js:11-26 | returns whether access was granted; a granted stream is kept, and nothing else changes |
| AudioRecording.AudioRecorder.StartRecording | js/audio-recorder.js:28-59 | without a stream or while recording, nothing; otherwise chunks are cleared, class and start time set, a recorder created, and recording begins |
| AudioRecording.AudioRecorder.OnDataAvailable | js/audio-recorder.js:43-47 | a non-empty chunk is appended; nothing else changes |
| AudioRecording.AudioRecorder.StopRecording | js/audio-recorder.js:61-70 | recording stops only when a recorder exists; nothing else changes |
| AudioRecording.AudioRecorder.ToggleRecording | js/audio-recorder.js:226-239 | when idle and granted, the stream is held and recording starts with empty chunks, the given class and start time `now`; when idle and refused, no field changes; when recording, only the flag changes, dropping exactly when a recorder exists |
| AudioRecording.AudioRecorder.RecordingDuration | js/audio-recorder.js:73-75 | the duration is under 0.5 s exactly when fewer than 500 ms have passed since the start, and non-negative exactly when `now` is not before the start |
| AudioRecording.AudioRecorder.ProcessRecording | js/audio-recorder.js:72-102 | under 0.5 s nothing is added; otherwise the concatenated chunks, decoded and WAV-encoded, are added to the current class with the measured duration |
| AudioRecording.AudioRecorder.ProcessUploadedFiles | js/audio-recorder.js:203-219 | every `audio/` file that decodes is WAV-encoded and appended, in order, with its decoded duration |
| Text.ContainsIffOccurs | js/model-trainer.js:99-177 | `includes` holds exactly when the word occurs at some position |
| Text.ContainsTransitive | js/model-trainer.js:99-177 | a string holding w holds every substring of w |
| Text.ToLower | js/model-trainer.js:96 | lower-casing keeps the length and maps each character |
| LabelMapping.MapLabelToClass | js/model-trainer.js:95-182 | the category is −1 or 0 … 8 |
| LabelMapping.FirstMatch | js/model-trainer.js:99-181 | the reference first-match classifier gives −1 or a category from c on |
| LabelMapping.FirstMatchIsFirst | js/model-trainer.js:99-181 | first match is −1 exactly when no test from c on passes; otherwise its test passes and no earlier one does |
| LabelMapping.MapLabelIsFirstMatch | js/model-trainer.js:95-182 | the if-chain equals the first-match classifier on the lower-cased label |
| LabelMapping.MapLabelContract | js/model-trainer.js:95-182 | −1 exactly when no category's keywords occur; otherwise the first category whose test passes |
| LabelMapping.CaseInsensitive | js/model-trainer.js:96 | labels equal after lower-casing map alike, and a label maps like its lower-cased form |
| LabelMapping.SpeechWins | js/model-trainer.js:99-104 | a label containing 'speech' maps to 0, whatever else it contains |
| LabelMapping.EngineOrMotorNeverVehicle | js/model-trainer.js:147-150 | a label containing 'engine' or 'motor' maps to some category ≤ 5 |
| LabelMapping.ShadowedVehicleKeywords | js/model-trainer.js:147-179 | 'engine start', 'motor vehicle', 'motorcycle' and 'engine'+'frequency' never yield Vehicles |
| LabelMapping.TrainNeverVehicle | js/model-trainer.js:160-171 | 'train' holds the Nature keyword 'rain', so it maps to some category ≤ 7, never Vehicles |
| Trainer.AggregateScores | js/model-trainer.js:72-83 | one entry per class, entry k being the summed score of the results mapped to k |
| Trainer.AggregationKeepsKnownMass | js/model-trainer.js:72-83 | with a slot for every category, the entries sum to the total score of the known labels |
| Trainer.ScoreSumBounds | js/model-trainer.js:79-82 | with non-negative scores, each entry lies between 0 and the known mass |
| Trainer.UnknownLabelIgnored | js/model-trainer.js:79 | a result mapped to −1 changes no entry |
| Trainer.ModelTrainer.constructor | js/model-trainer.js:2-7 | nothing loaded, no classes |
| Trainer.ModelTrainer.LoadModel | js/model-trainer.js:9-41 | if already loaded, nothing happens; on success the nine names are set and the model marked loaded; on failure it stays unloaded; loading ends cleared |
| Trainer.ModelTrainer.Predict | js/model-trainer.js:51-93 | throws "not loaded" without a loaded classifier; rethrows classifier failure; otherwise stores the raw results and returns 9 summed category scores |
| LiveInference.AcceptedWithin | js/live-inference.js:19-20 | a type containing an accepted type is accepted, for example 'audio/x-wav' |
| LiveInference.PresetMimeType | js/live-inference.js:390-397 | '.mp3' gives audio/mpeg, '.wav' audio/wav, '.ogg' audio/ogg, and any other name audio/mpeg |
| LiveInference.PresetTypeIsAccepted | js/live-inference.js:390-406 | every preset's MIME type passes the upload check |
| LiveInference.ColorOf | js/live-inference.js:251 | green exactly above 0.2, orange on (0.05, 0.2], grey at or below 0.05 |
| LiveInference.ColorMonotone | js/live-inference.js:251 | a higher score never gets a dimmer colour |
| LiveInference.SortByScoreDescending | js/live-inference.js:229 | the sorted copy is a permutation of the raw predictions in non-increasing score order |
| LiveInference.InsertAt | js/live-inference.js:229 | one insertion step extends the sorted prefix and keeps the multiset |
| LiveInference.SwapDown | js/live-inference.js:229 | an adjacent exchange keeps the multiset and touches only two slots |
| LiveInference.RowPredictions | js/live-inference.js:231-271 | row i shows prediction i |
| LiveInference.DisplayPredictions | js/live-inference.js:202-271 | the message exactly for a null or empty list; otherwise every prediction once, ranked by score, each coloured by its band |
| LiveInference.RankedColorsDescend | js/live-inference.js:229-251 | down the ranked list the colours never brighten |
| LiveInference.AudioUploader.constructor | js/live-inference.js:2-7 | no file, name or buffer yet |
| LiveInference.AudioUploader.HandleFileUpload | js/live-inference.js:9-120 | refuses before validation without a loaded model or without a file; refuses a failing type; otherwise keeps the file, decodes, keeps buffer and duration, classifies, and shows the ranked raw predictions |

## Left out

- DOM, rendering, styles, alerts, console output, the canvas drawing `visualizeAudio`
  (js/audio-processor.js:220-246), `updateSamplesDisplay`, playback (`playSample`),
  `updateLoadingUI` and `enableTesting`: pure UI, no sequential logic. The train button's
  `disabled` flag is kept, as `trainEnabled`.
- Numerical accuracy of `cos`, `sin`, `log`, `log10`, `pow` and `sqrt`: these are
  uninterpreted parameters. The facts assumed are preconditions of the lemmas that use them:
  `SqrtIsNonNegative` (normaliser), `sqrt(0) = 0` (`Spectrogram.SilentFrameMagnitudes`,
  `Spectrogram.SilenceGivesZeroSpectrogram`), `CosIsBounded`
  (`Spectrogram.HannWeightInUnitInterval`), and `PowInvertsLog10` / `Log10InvertsPow`
  (`MelFilterBank.MelToHzInvertsHzToMel`, `MelFilterBank.HzToMelInvertsMelToHz`).
- IEEE-754 and `Float32Array` rounding: values are exact reals, so "sums to zero" and
  "normalises to zero" hold in exact arithmetic only. NaN handling (`|| 0`) is also not
  modelled.
- Segmenter.SegmentAudio: requires an even, positive L. For odd L the JavaScript steps by a
  fractional L/2 and reads fractional indices (`undefined || 0`). For L = 0 it never
  terminates.
- Pipeline.ProcessAudioSamples, Pipeline.ProcessClass and Pipeline.ProcessBuffer inherit that
  requirement through `Pipeline.ValidSegmentLength`. It holds at the usual 44.1 kHz and
  48 kHz rates (`Pipeline.CommonRatesAreValid`). Rates with an odd or zero segment length are
  not modelled.
- Segmenter.LiveWindow: the zero-padding path models `set` into a zeroed buffer. A buffer
  longer than L is sliced as a value; no `Float32Array` is shared.
- Decoding, `MediaRecorder`, `getUserMedia`, `FileReader`, `fetch` and Transformers.js are
  browser or library code: they are function or boolean parameters. Their timing and
  failure modes beyond "fails or returns a value" are not modelled.
- Async ordering and callbacks: each async method is modelled as running to completion, in
  the order the awaits impose. Overlapping uploads, and a recorder `onstop` racing the UI,
  are not modelled.
- `js/app.js`, `server.js` and `js/audio-context-manager.js`: the tutorial UI, static
  serving and the context wrapper. Only its sample rate enters, as a parameter.
- Text.ToLower: ASCII only. `toLowerCase` also folds non-ASCII letters.
- AudioRecording.AudioRecorder.ProcessUploadedFiles: every sample of one upload batch is
  stamped with the same `now`. The real clock advances between files.
- AudioRecording.AudioRecorder.ProcessRecording: with no current class (the initial
  `null`), the JavaScript stores the sample under the array property "null". The model adds
  nothing.
- AudioRecording.AudioRecorder.StartRecording, AudioRecording.AudioRecorder.ToggleRecording,
  AudioRecording.AudioRecorder.ProcessUploadedFiles and AudioRecording.SampleStore.AddSampleToClass:
  the class index is a natural. The −1 that `indexOf` gives for a button or input outside a class
  section is not modelled.
- LiveInference.SortByScoreDescending: stability (equal scores keep their order, as the
  JavaScript sort guarantees) is not stated, only permutation and order.
- LiveInference.AudioUploader.HandleFileUpload: the processing and loading indicators, and
  the re-enabled buttons, are not modelled. `predict`'s audio is the decoded first channel,
  at the rate passed in.
- The `label` property of a raw prediction is the field `name` (`label` is a Dafny
  keyword).
- `createMelFilterBank` writes at negative `j` in JavaScript set non-index properties and
  have no effect; the model ignores them in the same way.

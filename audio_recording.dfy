/** The per-class sample store, the training gate and the recorder's state machine
    (js/audio-recorder.js). Browser objects become inputs: microphone permission is a flag,
    `Date.now()` a millisecond reading, decoding a function from bytes to a decoded buffer, and
    the number of `.class-section` elements a count. */
module AudioRecording {
  import opened Wrappers
  import opened AudioTypes
  import opened Text
  import opened WavEncoder

  /** The total duration `checkTrainingRequirements` asks of every class, in seconds. */
  const MinClassDuration: real := 8.0
  /** The shortest recording `processRecording` keeps, in seconds. */
  const MinRecordingDuration: real := 0.5

  /** `samples.reduce((sum, sample) => sum + sample.duration, 0)`. */
  function TotalDuration(samples: seq<Sample>): real {
    if |samples| == 0 then 0.0 else TotalDuration(samples[..|samples| - 1]) + samples[|samples| - 1].duration
  }

  /** `window.audioSamples[i] || []`. */
  function ClassList(lists: SampleLists, i: nat): seq<Sample> {
    if i < |lists| && lists[i].Some? then lists[i].value else []
  }

  /** The store after `addSampleToClass`: class k's list (created empty if missing, the sparse
      array growing with holes if k is past its end) gains the sample at its end. */
  function StoreWithSample(lists: SampleLists, k: nat, sample: Sample): (r: SampleLists)
    ensures |r| == if k < |lists| then |lists| else k + 1
    ensures r[k] == Some(ClassList(lists, k) + [sample])
    ensures forall j | 0 <= j < |r| && j != k :: r[j] == if j < |lists| then lists[j] else None
  {
    var grown := if k < |lists| then lists else lists + seq(k + 1 - |lists|, _ => None);
    grown[k := Some(ClassList(lists, k) + [sample])]
  }

  /** `Array.prototype.splice(start, 1)` on a list: a negative start counts from the end (and
      is clamped at 0), a start at or past the end removes nothing. */
  function SpliceOne<T>(xs: seq<T>, start: int): seq<T> {
    var s := if start < 0 then (if |xs| + start < 0 then 0 else |xs| + start) else start;
    if s < |xs| then xs[..s] + xs[s + 1..] else xs
  }

  /** The training gate: at least two classes, a store, and every class 0 … classCount − 1 with
      at least 8 s of samples. */
  predicate CanTrain(present: bool, lists: SampleLists, classCount: nat) {
    classCount >= 2 && present &&
    forall i | 0 <= i < classCount :: TotalDuration(ClassList(lists, i)) >= MinClassDuration
  }

  /** The loop of `checkTrainingRequirements`: `canTrain` starts as `classes.length >= 2`, the
      store must exist, and the first class short of 8 s clears it and breaks. */
  method MeetsTrainingRequirements(present: bool, lists: SampleLists, classCount: nat) returns (canTrain: bool)
    ensures canTrain == CanTrain(present, lists, classCount)
  {
    canTrain := classCount >= 2;
    if canTrain && present {
      var i := 0;
      while i < classCount
        invariant 0 <= i <= classCount && canTrain
        invariant forall j | 0 <= j < i :: TotalDuration(ClassList(lists, j)) >= MinClassDuration
      {
        var totalDuration := TotalDuration(ClassList(lists, i));
        if totalDuration < MinClassDuration {
          canTrain := false;
          break;
        }
        i := i + 1;
      }
    } else {
      canTrain := false;
    }
  }

  /** `window.audioSamples` and the train button's enabled state. */
  class SampleStore {
    /** Whether `window.audioSamples` has been created. */
    var present: bool
    var lists: SampleLists
    /** `!trainBtn.disabled`. */
    var trainEnabled: bool

    /** No store yet and a disabled train button. */
    constructor()
      ensures !present && lists == [] && !trainEnabled
    {
      present := false;
      lists := [];
      trainEnabled := false;
    }

    /** `checkTrainingRequirements()`: the train button is enabled exactly when training is
        possible; the samples are untouched. */
    method CheckTrainingRequirements(classCount: nat)
      modifies this
      ensures present == old(present) && lists == old(lists)
      ensures trainEnabled == CanTrain(present, lists, classCount)
    {
      trainEnabled := MeetsTrainingRequirements(present, lists, classCount);
    }

    /** `addSampleToClass(audioBlob, classIndex, duration)`: creates the store and the class list
        when missing, appends `{ blob, duration, timestamp }`, then re-checks the gate. */
    method AddSampleToClass(blob: seq<byte>, classIndex: nat, duration: real, now: int, classCount: nat)
      modifies this
      ensures present
      ensures lists == StoreWithSample(old(if present then lists else []), classIndex, Sample(blob, duration, now))
      ensures trainEnabled == CanTrain(true, lists, classCount)
    {
      if !present {
        present := true;
        lists := [];
      }
      lists := StoreWithSample(lists, classIndex, Sample(blob, duration, now));
      CheckTrainingRequirements(classCount);
    }

    /** `removeSample(classIndex, sampleIndex)`: with a store and a list for the class, splices
        out one sample and re-checks the gate; otherwise nothing happens. */
    method RemoveSample(classIndex: int, sampleIndex: int, classCount: nat)
      modifies this
      ensures present == old(present)
      ensures if present && 0 <= classIndex < |old(lists)| && old(lists)[classIndex].Some? then
          lists == old(lists)[classIndex := Some(SpliceOne(old(lists)[classIndex].value, sampleIndex))] &&
          trainEnabled == CanTrain(present, lists, classCount)
        else lists == old(lists) && trainEnabled == old(trainEnabled)
    {
      if present && 0 <= classIndex < |lists| && lists[classIndex].Some? {
        lists := lists[classIndex := Some(SpliceOne(lists[classIndex].value, sampleIndex))];
        CheckTrainingRequirements(classCount);
      }
    }
  }

  /** Adding a sample touches only its class: every other class keeps its list. */
  lemma AddKeepsOtherClasses(lists: SampleLists, k: nat, sample: Sample, j: nat)
    requires j != k
    ensures ClassList(StoreWithSample(lists, k, sample), j) == ClassList(lists, j)
  {
  }

  /** Adding a sample adds exactly its duration to its class's total. */
  lemma {:induction false} AddAddsDuration(lists: SampleLists, k: nat, sample: Sample)
    ensures TotalDuration(ClassList(StoreWithSample(lists, k, sample), k)) ==
            TotalDuration(ClassList(lists, k)) + sample.duration
  {
    var xs := ClassList(lists, k);
    assert (xs + [sample])[..|xs|] == xs;
  }

  /** Adding a sample of non-negative duration never closes the gate. */
  lemma AddKeepsTrainable(lists: SampleLists, k: nat, sample: Sample, classCount: nat)
    requires CanTrain(true, lists, classCount) && sample.duration >= 0.0
    ensures CanTrain(true, StoreWithSample(lists, k, sample), classCount)
  {
    var r := StoreWithSample(lists, k, sample);
    forall i | 0 <= i < classCount
      ensures TotalDuration(ClassList(r, i)) >= MinClassDuration
    {
      if i == k {
        AddAddsDuration(lists, k, sample);
      } else {
        AddKeepsOtherClasses(lists, k, sample, i);
      }
    }
  }

  /** Splicing at an index inside the list removes exactly that element: earlier ones stay,
      later ones move down by one, and the elements lost are exactly that one. */
  lemma SpliceRemovesExactlyOne<T>(xs: seq<T>, i: nat)
    requires i < |xs|
    ensures var r := SpliceOne(xs, i);
      |r| == |xs| - 1 &&
      (forall j | 0 <= j < i :: r[j] == xs[j]) &&
      (forall j | i <= j < |r| :: r[j] == xs[j + 1]) &&
      multiset(r) + multiset{xs[i]} == multiset(xs)
  {
    assert xs == xs[..i] + [xs[i]] + xs[i + 1..];
  }

  /** Splicing at an index past the end removes nothing. */
  lemma SplicePastEndIsNoOp<T>(xs: seq<T>, i: int)
    requires i >= |xs|
    ensures SpliceOne(xs, i) == xs
  {
  }

  /** The durations of a concatenation add up. */
  lemma {:induction false} TotalDurationAppend(a: seq<Sample>, b: seq<Sample>)
    ensures TotalDuration(a + b) == TotalDuration(a) + TotalDuration(b)
    decreases |b|
  {
    if |b| > 0 {
      var b' := b[..|b| - 1];
      assert (a + b)[..|a + b| - 1] == a + b';
      TotalDurationAppend(a, b');
    } else {
      assert a + b == a;
    }
  }

  /** Removing the sample at an index takes exactly its duration off the class total. */
  lemma RemoveSubtractsDuration(xs: seq<Sample>, i: nat)
    requires i < |xs|
    ensures TotalDuration(SpliceOne(xs, i)) == TotalDuration(xs) - xs[i].duration
  {
    var a, x, b := xs[..i], xs[i], xs[i + 1..];
    assert xs == a + [x] + b;
    assert SpliceOne(xs, i) == a + b;
    TotalDurationAppend(a + [x], b);
    TotalDurationAppend(a, [x]);
    TotalDurationAppend(a, b);
    assert [x][..0] == [];
    assert TotalDuration([x]) == x.duration;
  }

  /** The samples `processUploadedFiles` adds, in order: one per `audio/` file that decodes,
      holding the WAV encoding of its first channel and the decoder's duration. */
  function UploadedSamples(files: seq<UploadFile>, decode: seq<byte> -> Option<AudioBuffer>, now: int): seq<Sample> {
    if |files| == 0 then []
    else
      var f := files[|files| - 1];
      UploadedSamples(files[..|files| - 1], decode, now) +
        if StartsWith(f.mimeType, "audio/") && decode(f.bytes).Some? then
          [Sample(WavBytes(decode(f.bytes).value.channelData), decode(f.bytes).value.duration, now)]
        else []
  }

  /** The store after appending samples to class k one by one. */
  function StoreWithSamples(lists: SampleLists, k: nat, samples: seq<Sample>): SampleLists {
    if |samples| == 0 then lists
    else StoreWithSample(StoreWithSamples(lists, k, samples[..|samples| - 1]), k, samples[|samples| - 1])
  }

  /** Appending samples to a class appends them, in order, to its list. */
  lemma {:induction false} StoreWithSamplesAppends(lists: SampleLists, k: nat, samples: seq<Sample>)
    ensures ClassList(StoreWithSamples(lists, k, samples), k) == ClassList(lists, k) + samples
  {
    if |samples| > 0 {
      var init := samples[..|samples| - 1];
      StoreWithSamplesAppends(lists, k, init);
      assert samples == init + [samples[|samples| - 1]];
    }
  }

  /** A file that is not audio, or does not decode, adds no sample. */
  lemma RejectedFileAddsNothing(files: seq<UploadFile>, f: UploadFile, decode: seq<byte> -> Option<AudioBuffer>, now: int)
    requires !StartsWith(f.mimeType, "audio/") || decode(f.bytes).None?
    ensures UploadedSamples(files + [f], decode, now) == UploadedSamples(files, decode, now)
  {
    assert (files + [f])[..|files|] == files;
  }

  /** The recorder: microphone stream, `MediaRecorder`, chunk buffer and flags. */
  class AudioRecorder {
    var hasStream: bool
    var hasMediaRecorder: bool
    var isRecording: bool
    /** `audioChunks`: the non-empty blobs `ondataavailable` delivered. */
    var audioChunks: seq<seq<byte>>
    /** `currentClassIndex`, `None` for the initial `null`. */
    var currentClassIndex: Option<nat>
    /** `recordingStartTime` in milliseconds; the initial `null` is 0 in arithmetic. */
    var recordingStartTime: int
    const store: SampleStore

    constructor(store: SampleStore)
      ensures !hasStream && !hasMediaRecorder && !isRecording && audioChunks == []
      ensures currentClassIndex == None && recordingStartTime == 0 && this.store == store
    {
      hasStream := false;
      hasMediaRecorder := false;
      isRecording := false;
      audioChunks := [];
      currentClassIndex := None;
      recordingStartTime := 0;
      this.store := store;
    }

    /** `initialize()`: asks for the microphone; on refusal the stream is left as it was. */
    method Initialize(granted: bool) returns (success: bool)
      modifies this
      ensures success == granted
      ensures hasStream == (old(hasStream) || granted)
      ensures isRecording == old(isRecording) && audioChunks == old(audioChunks)
      ensures hasMediaRecorder == old(hasMediaRecorder) && currentClassIndex == old(currentClassIndex)
      ensures recordingStartTime == old(recordingStartTime)
    {
      if granted {
        hasStream := true;
      }
      success := granted;
    }

    /** `startRecording(classIndex)`: without a stream, or while recording, nothing happens;
        otherwise the chunks are cleared, the class and start time noted, and recording begins. */
    method StartRecording(classIndex: nat, now: int)
      modifies this
      ensures hasStream == old(hasStream)
      ensures if !old(hasStream) || old(isRecording) then
          isRecording == old(isRecording) && audioChunks == old(audioChunks) &&
          currentClassIndex == old(currentClassIndex) && recordingStartTime == old(recordingStartTime) &&
          hasMediaRecorder == old(hasMediaRecorder)
        else
          isRecording && hasMediaRecorder && audioChunks == [] &&
          currentClassIndex == Some(classIndex) && recordingStartTime == now
    {
      if !hasStream || isRecording {
        return;
      }
      audioChunks := [];
      currentClassIndex := Some(classIndex);
      recordingStartTime := now;
      hasMediaRecorder := true;
      isRecording := true;
    }

    /** `ondataavailable`: a non-empty chunk is kept. */
    method OnDataAvailable(chunk: seq<byte>)
      modifies this
      ensures audioChunks == if |chunk| > 0 then old(audioChunks) + [chunk] else old(audioChunks)
      ensures isRecording == old(isRecording) && hasStream == old(hasStream)
      ensures hasMediaRecorder == old(hasMediaRecorder) && currentClassIndex == old(currentClassIndex)
      ensures recordingStartTime == old(recordingStartTime)
    {
      if |chunk| > 0 {
        audioChunks := audioChunks + [chunk];
      }
    }

    /** `stopRecording()`: a no-op unless recording with a recorder; otherwise the flag drops
        (the recorder's `onstop` then runs `ProcessRecording`). */
    method StopRecording()
      modifies this
      ensures isRecording == (old(isRecording) && !old(hasMediaRecorder))
      ensures hasStream == old(hasStream) && hasMediaRecorder == old(hasMediaRecorder)
      ensures audioChunks == old(audioChunks) && currentClassIndex == old(currentClassIndex)
      ensures recordingStartTime == old(recordingStartTime)
    {
      if !isRecording || !hasMediaRecorder {
        return;
      }
      isRecording := false;
    }

    /** `toggleRecording(button)`: when idle, asks for the microphone and starts on success;
        when recording, stops. */
    method ToggleRecording(granted: bool, classIndex: nat, now: int)
      modifies this
      ensures !old(isRecording) && granted ==>
        hasStream && isRecording && hasMediaRecorder && audioChunks == [] &&
        currentClassIndex == Some(classIndex) && recordingStartTime == now
      ensures !old(isRecording) && !granted ==>
        !isRecording &&
        hasStream == old(hasStream) && hasMediaRecorder == old(hasMediaRecorder) &&
        audioChunks == old(audioChunks) && currentClassIndex == old(currentClassIndex) &&
        recordingStartTime == old(recordingStartTime)
      ensures old(isRecording) ==>
        isRecording == !old(hasMediaRecorder) &&
        hasStream == old(hasStream) && hasMediaRecorder == old(hasMediaRecorder) &&
        audioChunks == old(audioChunks) && currentClassIndex == old(currentClassIndex) &&
        recordingStartTime == old(recordingStartTime)
    {
      if !isRecording {
        var success := Initialize(granted);
        if success {
          StartRecording(classIndex, now);
        }
      } else {
        StopRecording();
      }
    }

    /** The recording's length in seconds: `(Date.now() - recordingStartTime) / 1000`. */
    function RecordingDuration(now: int): (d: real)
      reads this
      ensures d < MinRecordingDuration <==> now - recordingStartTime < 500
      ensures d >= 0.0 <==> now >= recordingStartTime
    {
      (now - recordingStartTime) as real / 1000.0
    }

    /** `processRecording()`: a recording under 0.5 s adds nothing; otherwise the chunks are
        joined, decoded and re-encoded as WAV, and the sample is added to the current class
        with that duration. A failed decode only logs. */
    method ProcessRecording(now: int, decode: seq<byte> -> Option<AudioBuffer>, addedAt: int, classCount: nat)
      modifies store
      ensures RecordingDuration(now) < MinRecordingDuration ==> unchanged(store)
      ensures var blob := Concat(audioChunks);
        RecordingDuration(now) >= MinRecordingDuration && currentClassIndex.Some? && decode(blob).Some? ==>
          store.present &&
          store.lists == StoreWithSample(old(if store.present then store.lists else []), currentClassIndex.value,
            Sample(WavBytes(decode(blob).value.channelData), RecordingDuration(now), addedAt)) &&
          store.trainEnabled == CanTrain(true, store.lists, classCount)
      ensures currentClassIndex.None? || decode(Concat(audioChunks)).None? ==> unchanged(store)
    {
      var recordingDuration := RecordingDuration(now);
      if recordingDuration < MinRecordingDuration {
        return;
      }
      var audioBlob := Concat(audioChunks);
      var decoded := decode(audioBlob);
      if decoded.Some? && currentClassIndex.Some? {
        var wavBlob := AudioBufferToWav(decoded.value.channelData);
        store.AddSampleToClass(wavBlob, currentClassIndex.value, recordingDuration, addedAt, classCount);
      }
    }

    /** `processUploadedFiles(files, classIndex)`: every `audio/` file that decodes is
        re-encoded as WAV and added to the class with its decoded duration; others are skipped.
        All samples carry the one `now` reading. */
    method ProcessUploadedFiles(files: seq<UploadFile>, classIndex: nat, decode: seq<byte> -> Option<AudioBuffer>,
                                now: int, classCount: nat)
      modifies store
      ensures UploadedSamples(files, decode, now) == [] ==> unchanged(store)
      ensures UploadedSamples(files, decode, now) != [] ==>
        store.present && store.trainEnabled == CanTrain(true, store.lists, classCount) &&
        store.lists == StoreWithSamples(old(if store.present then store.lists else []), classIndex,
                                        UploadedSamples(files, decode, now))
    {
      var i := 0;
      while i < |files|
        invariant 0 <= i <= |files|
        invariant UploadedSamples(files[..i], decode, now) == [] ==> unchanged(store)
        invariant UploadedSamples(files[..i], decode, now) != [] ==>
          store.present && store.trainEnabled == CanTrain(true, store.lists, classCount) &&
          store.lists == StoreWithSamples(old(if store.present then store.lists else []), classIndex,
                                          UploadedSamples(files[..i], decode, now))
      {
        var file := files[i];
        assert files[..i + 1][..i] == files[..i];
        ghost var before := UploadedSamples(files[..i], decode, now);
        ghost var added := false;
        if StartsWith(file.mimeType, "audio/") {
          var decoded := decode(file.bytes);
          if decoded.Some? {
            var wavBlob := AudioBufferToWav(decoded.value.channelData);
            ghost var sample := Sample(wavBlob, decoded.value.duration, now);
            assert UploadedSamples(files[..i + 1], decode, now) == before + [sample];
            assert (before + [sample])[..|before|] == before;
            store.AddSampleToClass(wavBlob, classIndex, decoded.value.duration, now, classCount);
            added := true;
          }
        }
        if !added {
          assert UploadedSamples(files[..i + 1], decode, now) == before;
        }
        i := i + 1;
      }
      assert files[..i] == files;
    }
  }

  /** `new Blob(audioChunks)`: the chunks' bytes in order. */
  function Concat(chunks: seq<seq<byte>>): seq<byte> {
    if |chunks| == 0 then [] else Concat(chunks[..|chunks| - 1]) + chunks[|chunks| - 1]
  }
}

/** `AudioUploader` and `selectPresetAudio` (js/live-inference.js): which uploaded files are
    accepted, the MIME type a preset file is given, and how the raw predictions are shown —
    ranked by score, each with a colour for its score band. */
module LiveInference {
  import opened Wrappers
  import opened Text
  import opened AudioTypes
  import opened Trainer

  /** The MIME subtypes of the valid types 'audio/wav', 'audio/mp3', 'audio/mpeg', 'audio/m4a',
      'audio/ogg', 'audio/flac' and 'audio/aac': the part after the '/'. */
  const AcceptedSubtypes: seq<string> := ["wav", "mp3", "mpeg", "m4a", "ogg", "flac", "aac"]

  /** The file-type check of `handleFileUpload`: the MIME type contains one valid subtype. */
  predicate IsAcceptedType(mimeType: string) {
    ContainsAny(mimeType, AcceptedSubtypes)
  }

  /** A type that contains an accepted type is accepted, so tests on subtypes let through any
      decoration around them ('audio/x-wav', 'audio/vnd.wave'). */
  lemma AcceptedWithin(t: string, u: string)
    requires IsAcceptedType(t) && Contains(u, t)
    ensures IsAcceptedType(u)
  {
    var k :| 0 <= k < |AcceptedSubtypes| && Contains(t, AcceptedSubtypes[k]);
    ContainsTransitive(u, t, AcceptedSubtypes[k]);
  }

  /** `s` contains `w` at position i. */
  lemma OccursThere(s: string, w: string, i: nat)
    requires i + |w| <= |s| && s[i..i + |w|] == w
    ensures Contains(s, w)
  {
    assert OccursAt(s, w, i);
    ContainsIffOccurs(s, w);
  }

  /** The MIME type a preset is fetched as: by its extension, '.mp3' → 'audio/mpeg',
      '.wav' → 'audio/wav', '.ogg' → 'audio/ogg', and 'audio/mpeg' for any other name. */
  function PresetMimeType(filename: string): (mimeType: string)
    ensures EndsWith(filename, ".mp3") ==> mimeType == "audio/mpeg"
    ensures !EndsWith(filename, ".mp3") && EndsWith(filename, ".wav") ==> mimeType == "audio/wav"
    ensures !EndsWith(filename, ".mp3") && !EndsWith(filename, ".wav") && EndsWith(filename, ".ogg") ==>
      mimeType == "audio/ogg"
    ensures !EndsWith(filename, ".mp3") && !EndsWith(filename, ".wav") && !EndsWith(filename, ".ogg") ==>
      mimeType == "audio/mpeg"
  {
    var mimeType := "audio/mpeg";
    if EndsWith(filename, ".mp3") then "audio/mpeg"
    else if EndsWith(filename, ".wav") then "audio/wav"
    else if EndsWith(filename, ".ogg") then "audio/ogg"
    else mimeType
  }

  /** Every preset passes the upload check, whatever its name: the preset path never hits the
      invalid-type alert. */
  lemma PresetTypeIsAccepted(filename: string)
    ensures IsAcceptedType(PresetMimeType(filename))
  {
    var t := PresetMimeType(filename);
    if t == "audio/mpeg" {
      OccursThere(t, "mpeg", 6);
      assert Contains(t, AcceptedSubtypes[2]);
    } else if t == "audio/wav" {
      OccursThere(t, "wav", 6);
      assert Contains(t, AcceptedSubtypes[0]);
    } else {
      assert t == "audio/ogg";
      OccursThere(t, "ogg", 6);
      assert Contains(t, AcceptedSubtypes[4]);
    }
  }

  /** The colour of a displayed score. */
  datatype ScoreColor = Green | Orange | Grey

  /** The colour band of a score: above 0.2 green, above 0.05 orange, otherwise grey. */
  function ColorOf(score: real): (c: ScoreColor)
    ensures c == Green <==> score > 0.2
    ensures c == Orange <==> 0.05 < score <= 0.2
    ensures c == Grey <==> score <= 0.05
  {
    if score > 0.2 then Green else if score > 0.05 then Orange else Grey
  }

  /** The brightness order of the bands: grey 0, orange 1, green 2. */
  function Rank(c: ScoreColor): nat {
    match c
    case Grey => 0
    case Orange => 1
    case Green => 2
  }

  /** A higher score never gets a dimmer colour. */
  lemma ColorMonotone(s: real, t: real)
    requires s <= t
    ensures Rank(ColorOf(s)) <= Rank(ColorOf(t))
  {
  }

  /** Predictions in non-increasing score order. */
  predicate Descending(ps: seq<RawPrediction>) {
    forall x, y | 0 <= x < y < |ps| :: ps[x].score >= ps[y].score
  }

  /** `[...rawPredictions].sort((a, b) => b.score - a.score)`: a copy of the raw predictions,
      sorted in place by descending score (insertion sort, which moves an element only past
      strictly lower scores). The result is a permutation of the input in non-increasing score
      order; the input itself is a value and stays as it was. */
  method SortByScoreDescending(raw: seq<RawPrediction>) returns (sorted: seq<RawPrediction>)
    ensures |sorted| == |raw|
    ensures multiset(sorted) == multiset(raw)
    ensures Descending(sorted)
  {
    var a := new RawPrediction[|raw|](i requires 0 <= i < |raw| => raw[i]);
    assert a[..] == raw;
    var i := 0;
    while i < a.Length
      invariant 0 <= i <= a.Length
      invariant Descending(a[..i])
      invariant multiset(a[..]) == multiset(raw)
    {
      InsertAt(a, i);
      i := i + 1;
    }
    assert a[..a.Length] == a[..];
    sorted := a[..];
  }

  /** One insertion step: the element at i moves left past every strictly lower score, so the
      sorted prefix grows by one. */
  method InsertAt(a: array<RawPrediction>, i: nat)
    requires i < a.Length && Descending(a[..i])
    modifies a
    ensures Descending(a[..i + 1])
    ensures multiset(a[..]) == multiset(old(a[..]))
  {
    var j := i;
    while j > 0 && a[j - 1].score < a[j].score
      invariant 0 <= j <= i
      invariant multiset(a[..]) == multiset(old(a[..]))
      invariant forall x, y | 0 <= x < y <= i && y != j :: a[x].score >= a[y].score
      invariant forall y | j < y <= i :: a[j].score > a[y].score
    {
      SwapDown(a, j);
      j := j - 1;
    }
  }

  /** Exchanges the elements at j − 1 and j. */
  method SwapDown(a: array<RawPrediction>, j: nat)
    requires 0 < j < a.Length
    modifies a
    ensures a[j - 1] == old(a[j]) && a[j] == old(a[j - 1])
    ensures forall k | 0 <= k < a.Length && k != j - 1 && k != j :: a[k] == old(a[k])
    ensures multiset(a[..]) == multiset(old(a[..]))
  {
    a[j - 1], a[j] := a[j], a[j - 1];
  }

  /** One displayed row: the raw prediction and the colour of its score. */
  datatype ShownPrediction = ShownPrediction(prediction: RawPrediction, color: ScoreColor)

  /** The predictions panel: the "No predictions available" message, or the ranked rows. */
  datatype PredictionView = NoPredictionsMessage | RankedList(rows: seq<ShownPrediction>)

  /** The raw predictions behind the rows. */
  function RowPredictions(rows: seq<ShownPrediction>): (ps: seq<RawPrediction>)
    ensures |ps| == |rows| && forall i | 0 <= i < |rows| :: ps[i] == rows[i].prediction
  {
    seq(|rows|, i requires 0 <= i < |rows| => rows[i].prediction)
  }

  /** What `displayPredictions` shows for the raw predictions: the message when they are absent
      or empty; otherwise every raw prediction once, ranked by descending score, each row
      coloured by its score band. */
  ghost predicate Displays(view: PredictionView, raw: Option<seq<RawPrediction>>) {
    if raw.None? || |raw.value| == 0 then view == NoPredictionsMessage
    else
      view.RankedList? &&
      multiset(RowPredictions(view.rows)) == multiset(raw.value) &&
      Descending(RowPredictions(view.rows)) &&
      forall i | 0 <= i < |view.rows| :: view.rows[i].color == ColorOf(view.rows[i].prediction.score)
  }

  /** `displayPredictions` and `displayRawPredictions`: the message for a null or empty list,
      otherwise the sorted copy rendered row by row with its colours. */
  method DisplayPredictions(raw: Option<seq<RawPrediction>>) returns (view: PredictionView)
    ensures Displays(view, raw)
    ensures view.NoPredictionsMessage? <==> raw.None? || |raw.value| == 0
    ensures view.RankedList? ==> |view.rows| == |raw.value|
  {
    if raw.Some? && |raw.value| > 0 {
      var sortedPredictions := SortByScoreDescending(raw.value);
      var rows: seq<ShownPrediction> := [];
      for i := 0 to |sortedPredictions|
        invariant |rows| == i
        invariant forall x | 0 <= x < i ::
          rows[x] == ShownPrediction(sortedPredictions[x], ColorOf(sortedPredictions[x].score))
      {
        rows := rows + [ShownPrediction(sortedPredictions[i], ColorOf(sortedPredictions[i].score))];
      }
      assert RowPredictions(rows) == sortedPredictions;
      view := RankedList(rows);
    } else {
      view := NoPredictionsMessage;
    }
  }

  /** Down a ranked list the colours never brighten. */
  lemma RankedColorsDescend(view: PredictionView, raw: Option<seq<RawPrediction>>, x: nat, y: nat)
    requires Displays(view, raw) && view.RankedList?
    requires x < y < |view.rows|
    ensures Rank(view.rows[y].color) <= Rank(view.rows[x].color)
  {
    var ps := RowPredictions(view.rows);
    assert ps[x].score >= ps[y].score;
    ColorMonotone(view.rows[y].prediction.score, view.rows[x].prediction.score);
  }

  /** How `handleFileUpload` ends: an alert that the model is not loaded, nothing for a missing
      file, an alert for an invalid type, a failed decode, a failed prediction, or the panel. */
  datatype UploadOutcome =
    | LoadModelFirst
    | NoFile
    | InvalidType
    | DecodeFailed
    | PredictionFailed
    | Shown(view: PredictionView)

  /** `AudioUploader`: the last accepted file, its name, and its decoded buffer and duration. */
  class AudioUploader {
    var testAudioBlob: Option<UploadFile>
    var testDuration: real
    var fileName: string
    var audioBuffer: Option<AudioBuffer>

    /** The constructor: no file yet. */
    constructor()
      ensures testAudioBlob == None && testDuration == 0.0 && fileName == "" && audioBuffer == None
    {
      testAudioBlob := None;
      testDuration := 0.0;
      fileName := "";
      audioBuffer := None;
    }

    /** `handleFileUpload(file)` with `processAudioFile` and `performPrediction`: refuse before
        anything else when the model is not loaded or there is no file; refuse a file whose
        type fails the check; otherwise keep the file, decode it, keep the buffer and its
        duration, classify its first channel and show the raw predictions. */
    method HandleFileUpload(file: Option<UploadFile>, trainer: ModelTrainer,
                            decode: seq<byte> -> Option<AudioBuffer>, sampleRate: real,
                            classify: (seq<real>, real) -> Option<seq<RawPrediction>>)
      returns (outcome: UploadOutcome)
      requires trainer.Valid()
      modifies this, trainer
      ensures trainer.Valid()
      ensures !old(trainer.modelLoaded) ==> outcome == LoadModelFirst && unchanged(this) && unchanged(trainer)
      ensures old(trainer.modelLoaded) && file.None? ==> outcome == NoFile && unchanged(this) && unchanged(trainer)
      ensures old(trainer.modelLoaded) && file.Some? && !IsAcceptedType(file.value.mimeType) ==>
        outcome == InvalidType && unchanged(this) && unchanged(trainer)
      ensures old(trainer.modelLoaded) && file.Some? && IsAcceptedType(file.value.mimeType) ==>
        fileName == file.value.name && testAudioBlob == file &&
        match decode(file.value.bytes)
        case None =>
          outcome == DecodeFailed && audioBuffer == old(audioBuffer) &&
          testDuration == old(testDuration) && unchanged(trainer)
        case Some(buffer) =>
          audioBuffer == Some(buffer) && testDuration == buffer.duration &&
          match classify(buffer.channelData, sampleRate)
          case None => outcome == PredictionFailed && unchanged(trainer)
          case Some(results) =>
            outcome.Shown? && Displays(outcome.view, Some(results)) &&
            trainer.lastRawPredictions == Some(results) && trainer.modelLoaded
    {
      if !trainer.modelLoaded {
        return LoadModelFirst;
      }
      if file.None? {
        return NoFile;
      }
      if !IsAcceptedType(file.value.mimeType) {
        return InvalidType;
      }
      fileName := file.value.name;
      testAudioBlob := file;
      var decoded := decode(file.value.bytes);
      if decoded.None? {
        return DecodeFailed;
      }
      audioBuffer := decoded;
      testDuration := decoded.value.duration;
      var predictions := trainer.Predict(decoded.value.channelData, sampleRate, classify);
      if predictions.Failure? {
        return PredictionFailed;
      }
      var view := DisplayPredictions(trainer.lastRawPredictions);
      outcome := Shown(view);
    }
  }
}

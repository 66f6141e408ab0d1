/** `ModelTrainer` (js/model-trainer.js:1-93): loading the pre-trained classifier once, and
    folding its top-k label scores into one summed score per category. The classifier itself,
    and whether loading it succeeds, come in as parameters. */
module Trainer {
  import opened Wrappers
  import opened DspMath
  import opened LabelMapping

  /** One raw prediction of the classifier: its `label` (here `name`) and `score`. */
  datatype RawPrediction = RawPrediction(name: string, score: real)

  /** The errors `predict` throws: the model is not loaded, or the classifier call threw. */
  datatype PredictError = ModelNotLoaded | ClassifierFailed

  /** The category names set once the model has loaded. */
  const CategoryNames: seq<string> :=
    ["Speech", "Music", "Sound effects", "Animals", "Human sounds", "Engine", "Tools", "Nature", "Vehicles"]

  /** The summed score of category k over a prefix of results: the scores of the results whose
      label maps to k. */
  function ScoreSum(results: seq<RawPrediction>, k: int): real {
    if |results| == 0 then 0.0
    else
      var last := results[|results| - 1];
      ScoreSum(results[..|results| - 1], k) + (if MapLabelToClass(last.name) == k then last.score else 0.0)
  }

  /** The total score of the results whose label maps to some category. */
  function KnownScore(results: seq<RawPrediction>): real {
    if |results| == 0 then 0.0
    else
      var last := results[|results| - 1];
      KnownScore(results[..|results| - 1]) + (if MapLabelToClass(last.name) != -1 then last.score else 0.0)
  }

  /** The aggregation loop of `predict`: a zero-filled array of `numClasses` entries, to which
      each result whose category k is known and in range adds its score at index k. */
  method AggregateScores(numClasses: nat, results: seq<RawPrediction>) returns (predictions: seq<real>)
    ensures |predictions| == numClasses
    ensures forall k | 0 <= k < numClasses :: predictions[k] == ScoreSum(results, k)
  {
    var a := new real[numClasses](_ => 0.0);
    for i := 0 to |results|
      invariant forall k | 0 <= k < numClasses :: a[k] == ScoreSum(results[..i], k)
    {
      var prediction := results[i];
      var classIndex := MapLabelToClass(prediction.name);
      assert results[..i + 1][..i] == results[..i];
      if classIndex != -1 && classIndex < a.Length {
        a[classIndex] := a[classIndex] + prediction.score;
      }
    }
    assert results[..|results|] == results;
    predictions := a[..];
  }

  /** Adding s at one index c of a sequence adds s to its sum when c is an index, else nothing. */
  lemma {:induction false} SumBump(a: seq<real>, b: seq<real>, c: int, s: real)
    requires |a| == |b|
    requires forall k | 0 <= k < |a| :: b[k] == a[k] + (if k == c then s else 0.0)
    ensures Sum(b) == Sum(a) + (if 0 <= c < |a| then s else 0.0)
    decreases |a|
  {
    if |a| > 0 {
      SumBump(a[..|a| - 1], b[..|b| - 1], c, s);
    }
  }

  /** With a slot for every category, aggregation loses no score: the entries sum to the total
      score of the results with a known label — mass moves between labels and categories but
      is never dropped, except for unknown labels. */
  lemma {:induction false} AggregationKeepsKnownMass(results: seq<RawPrediction>, n: nat)
    requires n >= CategoryCount
    ensures Sum(seq(n, k requires 0 <= k < n => ScoreSum(results, k))) == KnownScore(results)
    decreases |results|
  {
    var b := seq(n, k requires 0 <= k < n => ScoreSum(results, k));
    if |results| == 0 {
      SumConstant(b, 0.0);
    } else {
      var init, last := results[..|results| - 1], results[|results| - 1];
      var a := seq(n, k requires 0 <= k < n => ScoreSum(init, k));
      AggregationKeepsKnownMass(init, n);
      var c := MapLabelToClass(last.name);
      SumBump(a, b, c, last.score);
    }
  }

  /** With non-negative scores every category's sum is non-negative and at most the known mass. */
  lemma {:induction false} ScoreSumBounds(results: seq<RawPrediction>, k: nat)
    requires forall i | 0 <= i < |results| :: results[i].score >= 0.0
    ensures 0.0 <= ScoreSum(results, k) <= KnownScore(results)
    decreases |results|
  {
    if |results| > 0 {
      ScoreSumBounds(results[..|results| - 1], k);
    }
  }

  /** A result with an unmapped label changes no category's sum. */
  lemma UnknownLabelIgnored(results: seq<RawPrediction>, x: RawPrediction, k: nat)
    requires MapLabelToClass(x.name) == -1
    ensures ScoreSum(results + [x], k) == ScoreSum(results, k)
    ensures KnownScore(results + [x]) == KnownScore(results)
  {
    assert (results + [x])[..|results|] == results;
  }

  /** `ModelTrainer`: whether a classifier is held, the loading flag, the category names, the
      loaded flag, and the last raw predictions (absent until the first prediction). */
  class ModelTrainer {
    var hasClassifier: bool
    var isLoading: bool
    var classes: seq<string>
    var modelLoaded: bool
    var lastRawPredictions: Option<seq<RawPrediction>>

    /** The classifier is held exactly when the model is loaded, and then the names are set. */
    ghost predicate Valid()
      reads this
    {
      hasClassifier == modelLoaded && (modelLoaded ==> classes == CategoryNames)
    }

    /** The constructor: nothing loaded, no categories. */
    constructor()
      ensures Valid()
      ensures !hasClassifier && !isLoading && classes == [] && !modelLoaded && lastRawPredictions == None
    {
      hasClassifier := false;
      isLoading := false;
      classes := [];
      modelLoaded := false;
      lastRawPredictions := None;
    }

    /** `loadModel()`: nothing when already loaded; otherwise, when `loadSucceeds`, hold the
        classifier, set the nine names and mark the model loaded. A failure leaves the model
        unloaded; the loading flag is cleared either way. */
    method LoadModel(loadSucceeds: bool)
      requires Valid()
      modifies this
      ensures Valid()
      ensures old(modelLoaded) ==> unchanged(this)
      ensures !old(modelLoaded) ==>
        modelLoaded == loadSucceeds && !isLoading && lastRawPredictions == old(lastRawPredictions) &&
        classes == (if loadSucceeds then CategoryNames else old(classes))
    {
      if modelLoaded {
        return;
      }
      isLoading := true;
      if loadSucceeds {
        hasClassifier := true;
        classes := CategoryNames;
        modelLoaded := true;
      }
      isLoading := false;
    }

    /** `predict(audioBuffer)`: throws when the model is not loaded or the classifier throws
        (`classify` gives None); otherwise stores the raw predictions and returns, for each of the
        nine categories, the summed score of the results mapped to it. */
    method Predict(channelData: seq<real>, sampleRate: real,
                   classify: (seq<real>, real) -> Option<seq<RawPrediction>>)
      returns (r: Result<seq<real>, PredictError>)
      requires Valid()
      modifies this
      ensures Valid()
      ensures !old(modelLoaded) ==> r == Failure(ModelNotLoaded) && unchanged(this)
      ensures old(modelLoaded) && classify(channelData, sampleRate).None? ==>
        r == Failure(ClassifierFailed) && unchanged(this)
      ensures old(modelLoaded) && classify(channelData, sampleRate).Some? ==>
        var results := classify(channelData, sampleRate).value;
        r.Success? && |r.value| == CategoryCount &&
        (forall k | 0 <= k < CategoryCount :: r.value[k] == ScoreSum(results, k)) &&
        lastRawPredictions == Some(results) &&
        hasClassifier == old(hasClassifier) && isLoading == old(isLoading) &&
        classes == old(classes) && modelLoaded == old(modelLoaded)
    {
      if !hasClassifier || !modelLoaded {
        return Failure(ModelNotLoaded);
      }
      var result := classify(channelData, sampleRate);
      if result.None? {
        return Failure(ClassifierFailed);
      }
      lastRawPredictions := result;
      var predictions := AggregateScores(|classes|, result.value);
      r := Success(predictions);
    }
  }
}

/** `ModelTrainer.mapLabelToClass` (js/model-trainer.js:95-182): an ordered, first-match,
    case-insensitive keyword classifier from a classifier label to one of nine categories, or −1.
    Lower-casing is over ASCII letters. */
module LabelMapping {
  import opened Text

  /** The number of categories. */
  const CategoryCount: nat := 9

  const SpeechWords: seq<string> :=
    ["speech", "human voice", "conversation", "talk", "speaking", "male", "female", "child"]
  const MusicWords: seq<string> :=
    ["music", "musical", "song", "singing", "piano", "guitar", "drum", "orchestra"]
  const SoundEffectWords: seq<string> :=
    ["sound effect", "synthesizer", "beep", "alarm", "notification", "electronic"]
  const AnimalWords: seq<string> :=
    ["animal", "domestic", "wild", "dog", "cat", "pet", "bark", "meow", "cow", "horse", "pig", "sheep",
     "growling", "growl", "roaring cats", "lions, tigers", "bird", "lion", "wolf", "elephant", "monkey",
     "bear", "tiger", "chirp", "roar"]
  const HumanSoundWords: seq<string> :=
    ["laughter", "crying", "sneeze", "cough", "yell", "scream", "whistle", "clap"]
  const EngineWords: seq<string> :=
    ["engine", "motor", "machinery", "mechanical"]
  const ToolWords: seq<string> :=
    ["tool", "hammer", "drill", "saw", "construction", "work"]
  const NatureWords: seq<string> :=
    ["nature", "wind", "rain", "water", "thunder", "storm", "ocean", "river"]
  const VehicleWords: seq<string> :=
    ["vehicle", "car", "truck", "bus", "motorcycle", "traffic", "train", "airplane", "accelerating",
     "revving", "vroom", "engine start", "motor vehicle", "car passing", "whoosh", "swoosh", "swish",
     "rumble"]

  /** The keyword lists of categories 0 … 7, in the order they are tested. */
  const KeywordLists: seq<seq<string>> :=
    [SpeechWords, MusicWords, SoundEffectWords, AnimalWords, HumanSoundWords, EngineWords, ToolWords, NatureWords]

  /** The vehicle test: a keyword, or both 'engine' and 'frequency'. */
  predicate VehicleMatches(l: string) {
    ContainsAny(l, VehicleWords) || (Contains(l, "engine") && Contains(l, "frequency"))
  }

  /** Category c's test on the lower-cased label. */
  predicate CategoryMatches(l: string, c: nat)
    requires c < CategoryCount
  {
    if c < 8 then ContainsAny(l, KeywordLists[c]) else VehicleMatches(l)
  }

  /** `mapLabelToClass(label)`: the if-chain over the lower-cased label. */
  function MapLabelToClass(name: string): (k: int)
    ensures -1 <= k < CategoryCount as int
  {
    var l := ToLower(name);
    if ContainsAny(l, SpeechWords) then 0
    else if ContainsAny(l, MusicWords) then 1
    else if ContainsAny(l, SoundEffectWords) then 2
    else if ContainsAny(l, AnimalWords) then 3
    else if ContainsAny(l, HumanSoundWords) then 4
    else if ContainsAny(l, EngineWords) then 5
    else if ContainsAny(l, ToolWords) then 6
    else if ContainsAny(l, NatureWords) then 7
    else if VehicleMatches(l) then 8
    else -1
  }

  /** The reference reading of an ordered classifier: the first category from c on whose test
      passes, or −1. */
  function FirstMatch(l: string, c: nat): (k: int)
    requires c <= CategoryCount
    ensures k == -1 || c <= k < CategoryCount as int
    decreases CategoryCount - c
  {
    if c == CategoryCount then -1
    else if CategoryMatches(l, c) then c
    else FirstMatch(l, c + 1)
  }

  /** FirstMatch finds the first passing test, and is −1 exactly when none from c on passes. */
  lemma {:induction false} FirstMatchIsFirst(l: string, c: nat)
    requires c <= CategoryCount
    ensures var k := FirstMatch(l, c);
      (k == -1 <==> forall d | c <= d < CategoryCount :: !CategoryMatches(l, d)) &&
      (k != -1 ==> CategoryMatches(l, k) && forall d | c <= d < k :: !CategoryMatches(l, d))
    decreases CategoryCount - c
  {
    if c < CategoryCount && !CategoryMatches(l, c) {
      FirstMatchIsFirst(l, c + 1);
    }
  }

  /** The if-chain is the ordered first-match classifier over the lower-cased label. */
  lemma MapLabelIsFirstMatch(name: string)
    ensures MapLabelToClass(name) == FirstMatch(ToLower(name), 0)
  {
  }

  /** The full contract: the result is −1 exactly when no category's test passes, and
      otherwise the first category whose test passes. */
  lemma MapLabelContract(name: string)
    ensures var k, l := MapLabelToClass(name), ToLower(name);
      (k == -1 <==> forall c | 0 <= c < CategoryCount :: !CategoryMatches(l, c)) &&
      (k != -1 ==> 0 <= k < CategoryCount as int && CategoryMatches(l, k) &&
                   forall c | 0 <= c < k :: !CategoryMatches(l, c))
  {
    MapLabelIsFirstMatch(name);
    FirstMatchIsFirst(ToLower(name), 0);
  }

  /** Only the lower-cased label matters: labels that agree after lower-casing map alike, and
      a name maps like its lower-cased form. */
  lemma CaseInsensitive(a: string, b: string)
    requires ToLower(a) == ToLower(b)
    ensures MapLabelToClass(a) == MapLabelToClass(b)
    ensures MapLabelToClass(a) == MapLabelToClass(ToLower(a))
  {
    ToLowerIdempotent(a);
  }

  /** A test with a witness keyword passes. */
  lemma Matches(l: string, words: seq<string>, i: nat)
    requires i < |words| && Contains(l, words[i])
    ensures ContainsAny(l, words)
  {
  }

  /** 'speech' decides first: any label containing it maps to 0, whatever else it contains. */
  lemma SpeechWins(name: string)
    requires Contains(ToLower(name), "speech")
    ensures MapLabelToClass(name) == 0
  {
    Matches(ToLower(name), SpeechWords, 0);
  }

  /** 'engine' and 'motor' are Engine keywords, tested before Vehicles: a label holding either
      maps to some category up to 5, never to 8. */
  lemma EngineOrMotorNeverVehicle(name: string)
    requires Contains(ToLower(name), "engine") || Contains(ToLower(name), "motor")
    ensures 0 <= MapLabelToClass(name) <= 5
  {
    if Contains(ToLower(name), "engine") {
      Matches(ToLower(name), EngineWords, 0);
    } else {
      Matches(ToLower(name), EngineWords, 1);
    }
  }

  /** The shadowed vehicle keywords each hold an earlier category's keyword. */
  lemma KeywordInclusions()
    ensures Contains("engine start", "engine")
    ensures Contains("motor vehicle", "motor")
    ensures Contains("motorcycle", "motor")
    ensures Contains("train", "rain")
  {
    assert StartsWith("engine start", "engine") by { assert "engine start"[..6] == "engine"; }
    assert StartsWith("motor vehicle", "motor") by { assert "motor vehicle"[..5] == "motor"; }
    assert StartsWith("motorcycle", "motor") by { assert "motorcycle"[..5] == "motor"; }
    assert StartsWith("train"[1..], "rain") by { assert "train"[1..] == "rain"; }
  }

  /** The vehicle keywords 'engine start', 'motor vehicle' and 'motorcycle', and the
      engine-and-frequency clause, can never yield 8: each implies 'engine' or 'motor'. */
  lemma ShadowedVehicleKeywords(name: string)
    requires var l := ToLower(name);
      Contains(l, "engine start") || Contains(l, "motor vehicle") || Contains(l, "motorcycle") ||
      (Contains(l, "engine") && Contains(l, "frequency"))
    ensures MapLabelToClass(name) != 8
  {
    var l := ToLower(name);
    KeywordInclusions();
    if Contains(l, "engine start") {
      ContainsTransitive(l, "engine start", "engine");
    } else if Contains(l, "motor vehicle") {
      ContainsTransitive(l, "motor vehicle", "motor");
    } else if Contains(l, "motorcycle") {
      ContainsTransitive(l, "motorcycle", "motor");
    }
    EngineOrMotorNeverVehicle(name);
  }

  /** The vehicle keyword 'train' holds the Nature keyword 'rain', tested first: a label holding
      'train' maps to some category up to 7, never to 8. */
  lemma TrainNeverVehicle(name: string)
    requires Contains(ToLower(name), "train")
    ensures 0 <= MapLabelToClass(name) <= 7
  {
    var l := ToLower(name);
    KeywordInclusions();
    ContainsTransitive(l, "train", "rain");
    Matches(l, NatureWords, 2);
  }
}

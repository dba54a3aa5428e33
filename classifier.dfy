/**
 * `Sorter`: classifying files with a trained model. The prediction engine
 * loaded from the model is an opaque function from a file name to the
 * predicted label and the score vector; the slot names of the score column
 * are a given sequence.
 */
module Classifier {
  import opened SortedFiles
  import opened Ranking

  /** `SortedFilePrediction`: the engine's `PredictedLabel` and `Score` columns. */
  datatype Prediction = Prediction(Label: string, Score: seq<real>)

  /** One ranked entry: slot name, score and slot index. */
  datatype FullPrediction = FullPrediction(SlotName: string, Score: real, Index: int)

  /** The top score a prediction needs for its label to be accepted. */
  const Threshold: real := 0.3
  const NoLabel: string := "none"
  const WrongInputsMessage: string := "Function ConvertToSortedFiles: wrong inputs"
  /** The argument check of `VBuffer.GetItemOrDefault(slot)` on the slot names. */
  const SlotOutOfRangeMessage: string := "Specified argument was out of the range of valid values. (Parameter 'slot')"
  /** The bounds check of the array access `scores[i]`. */
  const IndexOutOfRangeMessage: string := "Index was outside the bounds of the array."

  /**
   * One `new FullPrediction(slotNames.GetItemOrDefault(i), scores[i], i)`:
   * the slot name is looked up first, so its check is the one that throws
   * when both reads are out of range.
   */
  function EntryAt(i: int, scores: seq<real>, slotNames: seq<string>): Result<FullPrediction>
  {
    if !(0 <= i < |slotNames|) then Failure(SlotOutOfRangeMessage)
    else if !(0 <= i < |scores|) then Failure(IndexOutOfRangeMessage)
    else Success(FullPrediction(slotNames[i], scores[i], i))
  }

  /**
   * What `GetBestThreePredictions` returns or throws: the three entries at
   * the indices of the top-three pass, in that order.
   */
  function BestThree(scores: seq<real>, slotNames: seq<string>): Result<seq<FullPrediction>>
  {
    var (i0, i1, i2) := TopIndexes(scores);
    var e0, e1, e2 := EntryAt(i0, scores, slotNames), EntryAt(i1, scores, slotNames), EntryAt(i2, scores, slotNames);
    if e0.Failure? then Failure(e0.error)
    else if e1.Failure? then Failure(e1.error)
    else if e2.Failure? then Failure(e2.error)
    else Success([e0.value, e1.value, e2.value])
  }

  /** The label `PredictAll` assigns to one file name, or what it throws. */
  function Classify(name: string, engine: string -> Prediction, slotNames: seq<string>): Result<string>
  {
    var prediction := engine(name);
    match BestThree(prediction.Score, slotNames)
    case Failure(e) => Failure(e)
    case Success(best) => Success(if best[0].Score >= Threshold then prediction.Label else NoLabel)
  }

  /** The record `PredictAll` leaves for a path it has classified. */
  function LabelledFile(path: string, engine: string -> Prediction, slotNames: seq<string>): SortedFile
  {
    var name := StripPath(path);
    match Classify(name, engine, slotNames)
    case Success(l) => SortedFile(Some(l), name)
    case Failure(_) => SortedFile(None, name)
  }

  /** The position of the first path whose classification throws, or the number of paths. */
  function FirstFailure(paths: seq<string>, engine: string -> Prediction, slotNames: seq<string>): (i: nat)
    ensures i <= |paths|
    ensures forall j :: 0 <= j < i ==> Classify(StripPath(paths[j]), engine, slotNames).Success?
    ensures i < |paths| ==> Classify(StripPath(paths[i]), engine, slotNames).Failure?
  {
    if paths == [] then 0
    else if Classify(StripPath(paths[0]), engine, slotNames).Failure? then 0
    else 1 + FirstFailure(paths[1..], engine, slotNames)
  }

  /** The list `PredictAll` works on once its first `done` paths are labelled. */
  function Progress(paths: seq<string>, done: nat, engine: string -> Prediction, slotNames: seq<string>): seq<SortedFile>
  {
    seq(|paths|, k requires 0 <= k < |paths| =>
      if k < done then LabelledFile(paths[k], engine, slotNames) else SortedFile(None, StripPath(paths[k])))
  }

  lemma ProgressStep(paths: seq<string>, i: nat, engine: string -> Prediction, slotNames: seq<string>)
    requires i < |paths|
    requires Classify(StripPath(paths[i]), engine, slotNames).Success?
    ensures Progress(paths, i, engine, slotNames)[i := SortedFile(Some(Classify(StripPath(paths[i]), engine, slotNames).value), StripPath(paths[i]))]
         == Progress(paths, i + 1, engine, slotNames)
  {
  }

  // ---------------------------------------------------------------------
  // Properties of the ranking and of the decision
  // ---------------------------------------------------------------------

  /**
   * With at least three scores, the ranking is read off the top-three pass:
   * it succeeds exactly when the three tracked values occur in the vector
   * (given a slot name per score), entry k then holds the k-th tracked value
   * and its first position, the scores descend, and the first is the
   * vector's maximum when some score is positive.
   */
  lemma BestThreeRanked(scores: seq<real>, slotNames: seq<string>)
    requires |scores| >= 3 && |slotNames| == |scores|
    ensures var t := Scan(scores);
      BestThree(scores, slotNames).Success? <==> t.first in scores && t.second in scores && t.third in scores
    ensures BestThree(scores, slotNames).Failure? ==> BestThree(scores, slotNames).error == SlotOutOfRangeMessage
    ensures BestThree(scores, slotNames).Success? ==>
      var best := BestThree(scores, slotNames).value;
      var t := Scan(scores);
      && |best| == 3
      && best[0].Score == t.first && best[1].Score == t.second && best[2].Score == t.third
      && best[0].Score >= best[1].Score >= best[2].Score
      && (forall i :: 0 <= i < |scores| ==> scores[i] <= best[0].Score)
      && (forall k :: 0 <= k < 3 ==>
            0 <= best[k].Index < |scores| && scores[best[k].Index] == best[k].Score &&
            best[k].SlotName == slotNames[best[k].Index] &&
            forall j :: 0 <= j < best[k].Index ==> scores[j] != best[k].Score)
  {
    ScanTopThree(scores);
    ScanFirstIsMaximum(scores);
  }

  /** Score vectors without negative entries (probabilities) never make the ranking throw. */
  lemma BestThreeOfProbabilities(scores: seq<real>, slotNames: seq<string>)
    requires |scores| >= 3 && |slotNames| == |scores|
    requires forall i :: 0 <= i < |scores| ==> scores[i] >= 0.0
    ensures BestThree(scores, slotNames).Success?
  {
    TopValuesPresent(scores);
  }

  /**
   * Fewer than three scores skip the pass: a non-empty vector gives three
   * copies of slot 0, whatever the other score, and an empty one throws.
   */
  lemma BestThreeShortVector(scores: seq<real>, slotNames: seq<string>)
    requires |scores| < 3 && |slotNames| == |scores|
    ensures scores == [] ==> BestThree(scores, slotNames) == Failure(SlotOutOfRangeMessage)
    ensures scores != [] ==>
      var e := FullPrediction(slotNames[0], scores[0], 0);
      BestThree(scores, slotNames) == Success([e, e, e])
  {
  }

  /**
   * The confidence decision: with at least three scores and a ranking that
   * succeeds, the predicted label is kept exactly when some score reaches
   * 0.3 (inclusive), and "none" is assigned otherwise.
   */
  lemma ClassifyThreshold(name: string, engine: string -> Prediction, slotNames: seq<string>)
    requires |engine(name).Score| >= 3
    requires BestThree(engine(name).Score, slotNames).Success?
    ensures var scores := engine(name).Score;
      Classify(name, engine, slotNames) ==
        Success(if exists i :: 0 <= i < |scores| && scores[i] >= 0.3 then engine(name).Label else "none")
  {
    var scores := engine(name).Score;
    var best := BestThree(scores, slotNames).value;
    ScanFirstIsMaximum(scores);
    assert best[0].Score == Scan(scores).first;
    if exists i :: 0 <= i < |scores| && scores[i] >= 0.3 {
      assert best[0].Score >= Threshold;
    }
  }

  /** A top score of exactly 0.3 is enough: the threshold is inclusive. */
  lemma ThresholdInclusive(engine: string -> Prediction, name: string, slotNames: seq<string>)
    requires |engine(name).Score| >= 3
    requires BestThree(engine(name).Score, slotNames).Success?
    requires Scan(engine(name).Score).first == 0.3
    ensures Classify(name, engine, slotNames) == Success(engine(name).Label)
  {
  }

  /** The boundary on a concrete vector whose largest score is exactly 0.3. */
  lemma ThresholdBoundaryExample(engine: string -> Prediction, name: string, slotNames: seq<string>)
    requires engine(name).Score == [0.3, 0.25, 0.2] && |slotNames| == 3
    ensures Classify(name, engine, slotNames) == Success(engine(name).Label)
  {
    var s := engine(name).Score;
    assert s[..2] == [0.3, 0.25] && [0.3, 0.25][..1] == [0.3] && [0.3][..0] == [];
    assert Scan(s) == Top(0.3, 0.25, 0.2);
  }

  /**
   * The state `Sorter` keeps between calls: the loaded engine and slot
   * names, the list `PredictAll` labels in place, and the last ranking.
   */
  class Sorter {
    const engine: string -> Prediction
    const slotNames: seq<string>
    var sortedFiles: Option<seq<SortedFile>>
    var fullPredictions: Option<seq<FullPrediction>>

    /** The loaded model stands for `Model.Load` and `CreatePredictionEngine`. */
    constructor (engine: string -> Prediction, slotNames: seq<string>)
      ensures this.engine == engine && this.slotNames == slotNames
      ensures sortedFiles == None && fullPredictions == None
    {
      this.engine := engine;
      this.slotNames := slotNames;
      sortedFiles := None;
      fullPredictions := None;
    }

    /**
     * `ConvertToSortedFiles`: throws on a null or empty list, otherwise one
     * unlabelled record per path, in order, named by the path's last segment.
     */
    method ConvertToSortedFiles(inputs: Option<seq<string>>) returns (r: Result<seq<SortedFile>>)
      ensures r.Failure? <==> inputs == None || |inputs.value| <= 0
      ensures r.Failure? ==> r.error == WrongInputsMessage
      ensures r.Success? ==>
        && |r.value| == |inputs.value|
        && forall k :: 0 <= k < |r.value| ==> r.value[k] == SortedFile(None, StripPath(inputs.value[k]))
    {
      if inputs == None || |inputs.value| <= 0 {
        return Failure(WrongInputsMessage);
      }
      var files := inputs.value;
      var sortedfiles: seq<SortedFile> := [];
      for i := 0 to |files|
        invariant |sortedfiles| == i
        invariant forall k :: 0 <= k < i ==> sortedfiles[k] == SortedFile(None, StripPath(files[k]))
      {
        sortedfiles := sortedfiles + [SortedFile(None, StripPath(files[i]))];
      }
      r := Success(sortedfiles);
    }

    /**
     * `GetIndexesOfTopThreeScores`: fewer than three scores give 0, 0, 0;
     * otherwise the first positions of the three tracked values, -1 for a
     * value the vector does not hold.
     */
    method GetIndexesOfTopThreeScores(scores: seq<real>) returns (index0: int, index1: int, index2: int)
      ensures |scores| < 3 ==> index0 == 0 && index1 == 0 && index2 == 0
      ensures |scores| >= 3 ==>
        var t := Scan(scores);
        && index0 == IndexOf(scores, t.first)
        && index1 == IndexOf(scores, t.second)
        && index2 == IndexOf(scores, t.third)
    {
      index0, index1, index2 := 0, 0, 0;
      var n := |scores|;
      if n < 3 {
        return;
      }
      var first, second, third := 0.0, 0.0, 0.0;
      for i := 0 to n
        invariant Top(first, second, third) == Scan(scores[..i])
      {
        assert scores[..i + 1][..i] == scores[..i];
        if scores[i] > first {
          third := second;
          second := first;
          first := scores[i];
        } else if scores[i] > second {
          third := second;
          second := scores[i];
        } else if scores[i] > third {
          third := scores[i];
        }
      }
      assert scores[..n] == scores;
      index0 := IndexOf(scores, first);
      index1 := IndexOf(scores, second);
      index2 := IndexOf(scores, third);
    }

    /**
     * `GetBestThreePredictions`: the ranking of one prediction, stored in
     * `fullPredictions` when no index check throws.
     */
    method GetBestThreePredictions(prediction: Prediction) returns (r: Result<seq<FullPrediction>>)
      modifies this`fullPredictions
      ensures r == BestThree(prediction.Score, slotNames)
      ensures fullPredictions == (if r.Success? then Some(r.value) else old(fullPredictions))
    {
      var scores := prediction.Score;
      var index0, index1, index2 := GetIndexesOfTopThreeScores(scores);
      var entry0 := EntryAt(index0, scores, slotNames);
      if entry0.Failure? {
        return Failure(entry0.error);
      }
      var entry1 := EntryAt(index1, scores, slotNames);
      if entry1.Failure? {
        return Failure(entry1.error);
      }
      var entry2 := EntryAt(index2, scores, slotNames);
      if entry2.Failure? {
        return Failure(entry2.error);
      }
      fullPredictions := Some([entry0.value, entry1.value, entry2.value]);
      r := Success(fullPredictions.value);
    }

    /** `PredictOne`: the ranking of the path's last segment, no threshold applied. */
    method PredictOne(fullFileName: string) returns (r: Result<seq<FullPrediction>>)
      modifies this`fullPredictions
      ensures r == BestThree(engine(StripPath(fullFileName)).Score, slotNames)
      ensures fullPredictions == (if r.Success? then Some(r.value) else old(fullPredictions))
    {
      var prediction := engine(StripPath(fullFileName));
      r := GetBestThreePredictions(prediction);
    }

    /**
     * `PredictAll`: labels the converted list in place, path by path, with
     * the predicted label or "none"; the first ranking that throws stops it
     * with the paths before it labelled and the rest not.
     */
    method PredictAll(fileNames: Option<seq<string>>) returns (r: Result<seq<SortedFile>>)
      modifies this`sortedFiles, this`fullPredictions
      ensures fileNames == None || |fileNames.value| == 0 ==>
        r == Failure(WrongInputsMessage) &&
        sortedFiles == old(sortedFiles) && fullPredictions == old(fullPredictions)
      ensures fileNames != None && |fileNames.value| > 0 ==>
        var paths := fileNames.value;
        var i := FirstFailure(paths, engine, slotNames);
        && sortedFiles == Some(Progress(paths, i, engine, slotNames))
        && r == (if i == |paths| then Success(Progress(paths, i, engine, slotNames))
                 else Failure(Classify(StripPath(paths[i]), engine, slotNames).error))
        && fullPredictions == (if i == 0 then old(fullPredictions)
                               else Some(BestThree(engine(StripPath(paths[i - 1])).Score, slotNames).value))
    {
      var converted := ConvertToSortedFiles(fileNames);
      if converted.Failure? {
        return Failure(converted.error);
      }
      var paths := fileNames.value;
      var files := converted.value;
      sortedFiles := Some(files);
      assert files == Progress(paths, 0, engine, slotNames);
      for i := 0 to |files|
        invariant sortedFiles.Some? && |sortedFiles.value| == |files|
        invariant i <= FirstFailure(paths, engine, slotNames)
        invariant sortedFiles == Some(Progress(paths, i, engine, slotNames))
        invariant fullPredictions == (if i == 0 then old(fullPredictions)
                                      else Some(BestThree(engine(StripPath(paths[i - 1])).Score, slotNames).value))
      {
        var file := sortedFiles.value[i];
        assert file == SortedFile(None, StripPath(paths[i]));
        var prediction := engine(file.FileName);
        var fullpredictions := GetBestThreePredictions(prediction);
        if fullpredictions.Failure? {
          assert Classify(StripPath(paths[i]), engine, slotNames).Failure?;
          assert FirstFailure(paths, engine, slotNames) == i;
          return Failure(fullpredictions.error);
        }
        var decided := if fullpredictions.value[0].Score >= Threshold then prediction.Label else NoLabel;
        assert Classify(StripPath(paths[i]), engine, slotNames) == Success(decided);
        ProgressStep(paths, i, engine, slotNames);
        sortedFiles := Some(sortedFiles.value[i := file.(Label := Some(decided))]);
      }
      r := Success(sortedFiles.value);
    }
  }
}

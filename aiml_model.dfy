/** aiml/cycle_prediction_model.py: the stand-alone training copy of the
    engine. Its features describe the record before each gap (symptoms,
    flow, month, weekday) rather than running statistics, its predictions
    are rounded to whole days within 21..35, and its fallback rounds the
    mean gap into 25..35. */
module AimlModel {
  import opened Common
  import opened Text

  const TrainingMessage := "At least 2 cycles are required for training"
  const NoCycles := "No cycle data provided"

  /** `feature_columns`: one row of the model's input. */
  datatype AimlFeatures = AimlFeatures(
    previousCycleLength: int,
    symptomsCount: nat,
    hasCramps: int,
    hasHeadache: int,
    heavyFlow: int,
    month: MonthNumber,
    dayOfWeek: int)

  /** The features of record `c`, given the gap that ended at `c`
      (28 when there is none) and the calendar month of a date. */
  function CycleFeatures(c: Cycle, previousLength: int, monthOf: Date -> MonthNumber): (f: AimlFeatures)
    ensures f.previousCycleLength == previousLength
    ensures f.symptomsCount == |c.symptoms|
    ensures f.hasCramps == (if "cramps" in c.symptoms then 1 else 0)
    ensures f.hasHeadache == (if "headache" in c.symptoms then 1 else 0)
    ensures f.heavyFlow == 1 <==> c.flow == Some("heavy")
    ensures f.heavyFlow == 0 <==> c.flow != Some("heavy")
    ensures 0 <= f.dayOfWeek <= 6
  {
    AimlFeatures(
      previousLength, |c.symptoms|,
      if "cramps" in c.symptoms then 1 else 0,
      if "headache" in c.symptoms then 1 else 0,
      if c.flow == Some("heavy") then 1 else 0,
      monthOf(c.start), Weekday(c.start))
  }

  /** `(X, y)` of `process_cycles`. */
  datatype AimlTable = AimlTable(rows: seq<AimlFeatures>, targets: seq<int>)

  /** The table of a sorted history: one row per gap, describing the record
      the gap starts from, with the gap before it as previous length. */
  function AimlTableOf(s: seq<Cycle>, monthOf: Date -> MonthNumber): (t: AimlTable)
    ensures |t.rows| == |t.targets| == |Gaps(s)|
  {
    var g := Gaps(s);
    AimlTable(seq(|g|, k requires 0 <= k < |g| => AimlRow(s, k, monthOf)), g)
  }

  /** The row for the gap after record `k`. */
  function AimlRow(s: seq<Cycle>, k: nat, monthOf: Date -> MonthNumber): AimlFeatures
    requires k < |s| - 1
  {
    CycleFeatures(s[k], if k >= 1 then s[k].start - s[k - 1].start else 28, monthOf)
  }

  /** Each row's previous length is the preceding row's target, except the
      first, which assumes 28 days; targets are the gaps between consecutive
      records. */
  lemma AimlTableChain(s: seq<Cycle>, monthOf: Date -> MonthNumber, k: nat)
    requires k < |AimlTableOf(s, monthOf).rows|
    ensures var t := AimlTableOf(s, monthOf);
      && t.targets[k] == s[k + 1].start - s[k].start
      && t.rows[k].previousCycleLength == (if k == 0 then 28 else t.targets[k - 1])
      && t.rows[k].symptomsCount == |s[k].symptoms|
  {
  }

  /** `DataProcessor.process_cycles`. */
  method ProcessCycles(cycles: seq<Cycle>, monthOf: Date -> MonthNumber) returns (r: Result<AimlTable>)
    ensures |cycles| < 2 ==> r == Err(TrainingMessage)
    ensures |cycles| >= 2 ==> r == Ok(AimlTableOf(SortByStart(cycles), monthOf))
    ensures r.Ok? ==> |r.value.rows| == |cycles| - 1
  {
    if |cycles| < 2 {
      return Err(TrainingMessage);
    }
    var s := SortByStart(cycles);
    ghost var g := Gaps(s);
    var features: seq<AimlFeatures> := [];
    var targets: seq<int> := [];
    for i := 1 to |s|
      invariant |features| == |targets| == i - 1
      invariant targets == g[..i - 1]
      invariant forall k :: 0 <= k < i - 1 ==> features[k] == AimlRow(s, k, monthOf)
    {
      var cycleLength := s[i].start - s[i - 1].start;
      var previous := if i >= 2 then s[i - 1].start - s[i - 2].start else 28;
      assert CycleFeatures(s[i - 1], previous, monthOf) == AimlRow(s, i - 1, monthOf);
      features := features + [CycleFeatures(s[i - 1], previous, monthOf)];
      GapsStep(s, i);
      targets := targets + [cycleLength];
    }
    assert targets == g by {
      assert g[..|s| - 1] == g;
    }
    assert features == AimlTableOf(s, monthOf).rows;
    r := Ok(AimlTable(features, targets));
  }

  /** `_calculate_fertile_window`: the cycle length is not used. */
  function CalculateFertileWindow(nextPeriod: Date, cycleLength: int): (w: Window)
    ensures w == LutealWindow(nextPeriod)
    ensures w.ovulation == nextPeriod - 14 && w.start == w.ovulation - 5 && w.end == w.ovulation + 1
  {
    var ovulationDay := nextPeriod - 14;
    Window(ovulationDay - 5, ovulationDay + 1, ovulationDay)
  }

  /** `_get_confidence_interval`: thresholds 3 and 5. */
  function ConfidenceInterval(nSamples: int): (c: Confidence)
    ensures c == High <==> nSamples >= 5
    ensures c == Medium <==> 3 <= nSamples < 5
    ensures c == Low <==> nSamples < 3
  {
    if nSamples >= 5 then High else if nSamples >= 3 then Medium else Low
  }

  lemma ConfidenceIntervalMonotone(n: int, m: int)
    requires n <= m
    ensures Rank(ConfidenceInterval(n)) <= Rank(ConfidenceInterval(m))
  {
  }

  /** The error and accuracy figures of one training run. */
  datatype TrainMetrics = TrainMetrics(trainMae: real, trainR2: real, testMae: real, testR2: real, nSamples: nat)

  datatype AimlMetadata = AimlMetadata(trainedAt: Option<string>, nSamples: nat, metrics: Option<TrainMetrics>)

  /** The metadata before anything is loaded or trained. */
  const InitialMetadata := AimlMetadata(None, 0, None)

  /** A scikit-learn object that may not have been fitted yet; using an
      unfitted one raises. */
  datatype Fitting<T> = Unfitted | Fitted(value: T)

  /** The training and test parts of the table. */
  datatype AimlSplit = AimlSplit(train: AimlTable, test: AimlTable)

  /** The scikit-learn steps of `train`, in the order they run; each may
      raise. `split` is `train_test_split`; `fitScaler` refits the scaler on
      the training rows; `scaleTest` is what transforming the test rows
      raises, if anything; `fitModel` refits the forest; `score` gives the
      training and test MAE and R² (and the feature importances, which are
      not kept). */
  datatype AimlTrainer = AimlTrainer(
    split: AimlTable -> Result<AimlSplit>,
    fitScaler: AimlSplit -> Result<Scaler<AimlFeatures>>,
    scaleTest: (Scaler<AimlFeatures>, AimlSplit) -> Option<string>,
    fitModel: (AimlSplit, Scaler<AimlFeatures>) -> Result<Regressor>,
    score: (Regressor, AimlSplit, Scaler<AimlFeatures>) -> Result<(real, real, real, real)>)

  /** The `status` dictionary of `train`. */
  datatype TrainStatus =
    | TrainSuccess(metrics: TrainMetrics, nSamples: nat)
    | InsufficientData(message: string)
    | TrainError(message: string)

  /** The prediction dictionary. */
  datatype AimlPrediction = AimlPrediction(
    nextPeriodDate: Date,
    fertileWindow: Window,
    predictedCycleLength: int,
    confidence: Confidence,
    modelMetrics: Option<TrainMetrics>,
    fallbackUsed: bool)

  /** `_fallback_prediction` on a non-empty history: the rounded mean gap
      within 25..35 days, or for a single record its own `cycle_length`
      (28 when absent); always low confidence. */
  function FallbackPrediction(cycles: seq<Cycle>): (p: AimlPrediction)
    requires cycles != []
    ensures p.fallbackUsed && p.confidence == Low && p.modelMetrics == None
    ensures |cycles| >= 2 ==> 25 <= p.predictedCycleLength <= 35
    ensures |cycles| == 1 ==>
      p.predictedCycleLength == (if cycles[0].cycleLength.Some? then cycles[0].cycleLength.value else 28)
    ensures |cycles| >= 2 ==>
      var m := Mean(Gaps(SortByStart(cycles)));
      && p.predictedCycleLength == ClampInt(25, 35, RoundHalfEven(m))
      && (m < 24.5 ==> p.predictedCycleLength == 25)
      && (m > 35.5 ==> p.predictedCycleLength == 35)
      && (25.0 <= m <= 35.0 ==> p.predictedCycleLength == RoundHalfEven(m))
    ensures p.nextPeriodDate == MaxStart(cycles) + p.predictedCycleLength
    ensures p.fertileWindow == LutealWindow(p.nextPeriodDate)
  {
    var s := SortByStart(cycles);
    LastSortedIsLatest(cycles);
    var lastCycle := s[|s| - 1];
    var avgLength :=
      if |s| >= 2 then ClampInt(25, 35, RoundHalfEven(Mean(Gaps(s))))
      else if lastCycle.cycleLength.Some? then lastCycle.cycleLength.value else 28;
    assert |s| == 1 ==> s == [cycles[0]] by {
      if |s| == 1 {
        SortSortedIsIdentity(cycles);
      }
    }
    var nextPeriod := lastCycle.start + avgLength;
    AimlPrediction(nextPeriod, CalculateFertileWindow(nextPeriod, avgLength), avgLength, Low, None, true)
  }

  /** With every gap already inside 25..35 days, the fallback length is just
      the rounded mean gap. */
  lemma FallbackRoundsMean(cycles: seq<Cycle>)
    requires |cycles| >= 2
    requires var g := Gaps(SortByStart(cycles)); forall i :: 0 <= i < |g| ==> 25 <= g[i] <= 35
    ensures FallbackPrediction(cycles).predictedCycleLength == RoundHalfEven(Mean(Gaps(SortByStart(cycles))))
  {
    SortByStartCorrect(cycles);
    var g := Gaps(SortByStart(cycles));
    MeanWithin(g, 25, 35);
  }

  /** The features of the latest record of a non-empty history, with the gap
      that ended at it. Of several records on the latest date it is the last
      one in input order, since the sort is stable. */
  function LatestFeatures(cycles: seq<Cycle>, monthOf: Date -> MonthNumber): (f: AimlFeatures)
    requires cycles != []
    ensures exists i ::
      && 0 <= i < |cycles|
      && cycles[i].start == MaxStart(cycles)
      && (forall j :: i < j < |cycles| ==> cycles[j].start != MaxStart(cycles))
      && f == CycleFeatures(cycles[i], f.previousCycleLength, monthOf)
    ensures |cycles| == 1 ==> f.previousCycleLength == 28
    ensures |cycles| >= 2 ==> f.previousCycleLength == Gaps(SortByStart(cycles))[|cycles| - 2] >= 0
  {
    var s := SortByStart(cycles);
    LatestSortedIn(cycles);
    var last := s[|s| - 1];
    assert last == cycles[LastAt(cycles, MaxStart(cycles))];
    CycleFeatures(last, if |s| >= 2 then last.start - s[|s| - 2].start else 28, monthOf)
  }

  /** The last record of the sorted history is the last record of the history
      that starts on the latest date, and the gap before it is not negative. */
  lemma LatestSortedIn(cycles: seq<Cycle>)
    requires cycles != []
    ensures var s := SortByStart(cycles);
      && |s| == |cycles|
      && LastAt(cycles, MaxStart(cycles)) >= 0
      && s[|s| - 1] == cycles[LastAt(cycles, MaxStart(cycles))]
      && s[|s| - 1].start == MaxStart(cycles)
      && (|s| >= 2 ==> Gaps(s)[|s| - 2] >= 0)
  {
    var s := SortByStart(cycles);
    LastSortedIsLatest(cycles);
    SortByStartCorrect(cycles);
    SortedGapsNonNegative(s);
    LastSortedIsLastLatest(cycles);
  }

  /** Two records on the same day: the later one in the list is used, and the
      gap before it is 0. */
  lemma LatestFeaturesTakesLastOfTie(a: Cycle, b: Cycle, monthOf: Date -> MonthNumber)
    requires a.start == b.start
    ensures LatestFeatures([a, b], monthOf) == CycleFeatures(b, 0, monthOf)
  {
    var f := LatestFeatures([a, b], monthOf);
    SortByStartCorrect([a, b]);
    var s := SortByStart([a, b]);
    assert s[0] in multiset([a, b]) && s[1] in multiset([a, b]);
    assert f.previousCycleLength == 0;
  }

  class AimlCyclePredictor {
    var model: Fitting<Regressor>
    var scaler: Fitting<Scaler<AimlFeatures>>
    var metadata: AimlMetadata

    /** `__init__` with `_load_model`: the scaler and metadata are only
        looked at when the model file exists, and any failure, or a
        missing model file, leaves a new unfitted forest (what was loaded
        before the failure stays). */
    constructor (modelFile: Stored<Regressor>, scalerFile: Stored<Scaler<AimlFeatures>>, metadataFile: Stored<AimlMetadata>)
      ensures !modelFile.Present? ==> model == Unfitted && scaler == Unfitted && metadata == InitialMetadata
      ensures modelFile.Present? ==>
        && scaler == (if scalerFile.Present? then Fitted(scalerFile.value) else Unfitted)
        && metadata == (if !scalerFile.Corrupt? && metadataFile.Present? then metadataFile.value else InitialMetadata)
        && model == (if scalerFile.Corrupt? || metadataFile.Corrupt? then Unfitted else Fitted(modelFile.value))
    {
      model := Unfitted;
      scaler := Unfitted;
      metadata := InitialMetadata;
      if modelFile.Present? {
        model := Fitted(modelFile.value);
        var failed := false;
        if scalerFile.Present? {
          scaler := Fitted(scalerFile.value);
        } else if scalerFile.Corrupt? {
          failed := true;
        }
        if !failed {
          if metadataFile.Present? {
            metadata := metadataFile.value;
          } else if metadataFile.Corrupt? {
            failed := true;
          }
        }
        if failed {
          model := Unfitted;
        }
      }
    }

    /** `train`. The scikit-learn steps are `tr`; `saveError` is what saving
        raises, if anything. Every failure is reported in the status, not
        raised. The scaler is refitted in place, so a failed refit leaves it
        unfitted; later steps that raise leave what earlier steps set. */
    method Train(
      cycles: seq<Cycle>, monthOf: Date -> MonthNumber, now: string, tr: AimlTrainer, saveError: Option<string>)
      returns (r: TrainStatus)
      modifies this
      ensures |cycles| < 2 ==> r == TrainError(TrainingMessage) && unchanged(this)
      ensures 2 <= |cycles| < 6 ==>
        r == InsufficientData("At least 5 cycles are needed for training, got " + IntToString(|cycles| - 1))
        && unchanged(this)
      ensures |cycles| >= 6 ==>
        var sp := tr.split(AimlTableOf(SortByStart(cycles), monthOf));
        && (sp.Err? ==> r == TrainError(sp.message) && unchanged(this))
        && (sp.Ok? ==>
          var sc := tr.fitScaler(sp.value);
          && (sc.Err? ==>
               r == TrainError(sc.message) && scaler == Unfitted && model == old(model) && metadata == old(metadata))
          && (sc.Ok? ==>
            var te := tr.scaleTest(sc.value, sp.value);
            && scaler == Fitted(sc.value)
            && (te.Some? ==> r == TrainError(te.value) && model == old(model) && metadata == old(metadata))
            && (te.None? ==>
              var fm := tr.fitModel(sp.value, sc.value);
              && (fm.Err? ==> r == TrainError(fm.message) && model == old(model) && metadata == old(metadata))
              && (fm.Ok? ==>
                var score := tr.score(fm.value, sp.value, sc.value);
                && model == Fitted(fm.value)
                && (score.Err? ==> r == TrainError(score.message) && metadata == old(metadata))
                && (score.Ok? ==>
                  var m := TrainMetrics(score.value.0, score.value.1, score.value.2, score.value.3, |cycles|);
                  && metadata == AimlMetadata(Some(now), |cycles|, Some(m))
                  && r == (if saveError.Some? then TrainError(saveError.value) else TrainSuccess(m, |cycles|)))))))
    {
      var processed := ProcessCycles(cycles, monthOf);
      if processed.Err? {
        return TrainError(processed.message);
      }
      var X := processed.value.rows;
      if |X| < 5 {
        return InsufficientData("At least 5 cycles are needed for training, got " + IntToString(|X|));
      }
      var split := tr.split(processed.value);
      if split.Err? {
        return TrainError(split.message);
      }
      var fitted := tr.fitScaler(split.value);
      if fitted.Err? {
        scaler := Unfitted;
        return TrainError(fitted.message);
      }
      scaler := Fitted(fitted.value);
      var testError := tr.scaleTest(fitted.value, split.value);
      if testError.Some? {
        return TrainError(testError.value);
      }
      var forest := tr.fitModel(split.value, fitted.value);
      if forest.Err? {
        return TrainError(forest.message);
      }
      model := Fitted(forest.value);
      var scores := tr.score(forest.value, split.value, fitted.value);
      if scores.Err? {
        return TrainError(scores.message);
      }
      var metrics := TrainMetrics(scores.value.0, scores.value.1, scores.value.2, scores.value.3, |cycles|);
      metadata := AimlMetadata(Some(now), |cycles|, Some(metrics));
      if saveError.Some? {
        return TrainError(saveError.value);
      }
      r := TrainSuccess(metrics, |cycles|);
    }

    /** What the fitted model estimates for the latest record, when both
        objects are fitted and neither call raises. */
    function MlEstimate(cycles: seq<Cycle>, monthOf: Date -> MonthNumber): (e: Option<real>)
      reads this
      requires cycles != []
      ensures e.Some? <==>
        && model.Fitted? && scaler.Fitted?
        && var x := scaler.value.transform(LatestFeatures(cycles, monthOf));
           x.Ok? && model.value.estimate(x.value).Ok?
      ensures e.Some? ==>
        model.value.estimate(scaler.value.transform(LatestFeatures(cycles, monthOf)).value) == Ok(e.value)
    {
      if model.Unfitted? || scaler.Unfitted? then None
      else
        match scaler.value.transform(LatestFeatures(cycles, monthOf))
        case Err(_) => None
        case Ok(x) =>
          match model.value.estimate(x)
          case Err(_) => None
          case Ok(e) => Some(e)
    }

    /** `predict_next_cycle`: raises only on an empty history. */
    method PredictNextCycle(cycles: seq<Cycle>, monthOf: Date -> MonthNumber) returns (r: Result<AimlPrediction>)
      ensures cycles == [] <==> r.Err?
      ensures r.Err? ==> r.message == NoCycles
      ensures r.Ok? ==> (r.value.fallbackUsed <==> MlEstimate(cycles, monthOf).None?)
      ensures r.Ok? && r.value.fallbackUsed ==> r.value == FallbackPrediction(cycles)
      ensures r.Ok? && !r.value.fallbackUsed ==>
        var p := r.value;
        && p.predictedCycleLength == ClampInt(21, 35, RoundHalfEven(MlEstimate(cycles, monthOf).value))
        && 21 <= p.predictedCycleLength <= 35
        && p.nextPeriodDate == MaxStart(cycles) + p.predictedCycleLength
        && p.fertileWindow == LutealWindow(p.nextPeriodDate)
        && p.confidence == ConfidenceInterval(|cycles|)
        && p.modelMetrics == metadata.metrics
    {
      if cycles == [] {
        return Err(NoCycles);
      }
      var sorted := SortByStart(cycles);
      LastSortedIsLatest(cycles);
      var lastCycle := sorted[|sorted| - 1];
      var features := LatestFeatures(cycles, monthOf);
      if model.Unfitted? || scaler.Unfitted? {
        return Ok(FallbackPrediction(cycles));
      }
      var xScaled := scaler.value.transform(features);
      if xScaled.Err? {
        return Ok(FallbackPrediction(cycles));
      }
      var estimate := model.value.estimate(xScaled.value);
      if estimate.Err? {
        return Ok(FallbackPrediction(cycles));
      }
      var predictedLength := RoundHalfEven(estimate.value);
      predictedLength := ClampInt(21, 35, predictedLength);
      var nextPeriod := lastCycle.start + predictedLength;
      var fertileWindow := CalculateFertileWindow(nextPeriod, predictedLength);
      r := Ok(AimlPrediction(nextPeriod, fertileWindow, predictedLength, ConfidenceInterval(|sorted|),
        metadata.metrics, false));
    }
  }
}

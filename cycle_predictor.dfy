/** backend/app/services/cycle_predictor.py: the backend engine. It tries the
    language-model service first, then the fitted regressor on the latest
    feature row, then the average of the sorted history, and for an empty
    history a 28-day default from today. */
module CyclePredictorService {
  import opened Common
  import opened Text
  import opened Features
  import opened MlUtils
  import opened Engine
  import opened GeminiService

  const MinCyclesForTraining := 3
  const ModelVersion := "1.0.0"

  /** The metadata keys the engine reads or writes; absent keys are None. */
  datatype Metadata = Metadata(
    version: Option<string>,
    lastTrained: Option<string>,
    nSamples: Option<nat>,
    trainedWithSamples: Option<nat>)

  /** `{}`, as set before loading and kept when prediction is disabled. */
  const EmptyMetadata := Metadata(None, None, None, None)
  /** The metadata set when loading the stored artifacts fails. */
  const LoadFailureMetadata := Metadata(Some(ModelVersion), None, None, None)

  /** What `load_model_artifacts` returns when it succeeds. */
  datatype Artifacts = Artifacts(model: Regressor, scaler: Scaler<FeatureRow>, metadata: Metadata)

  /** The training and test parts of the feature table. */
  datatype Split = Split(train: FeatureTable, test: FeatureTable)

  /** The scikit-learn steps of `train`, in the order they run; each may
      raise. `split` is `train_test_split`; `fitScaler` is `fit_transform`
      of a new scaler on the training rows; `scaleTest` is what transforming
      the test rows raises, if anything; `fitModel` fits a new forest;
      `score` gives the training and test scores (and the feature
      importances, which are not kept). */
  datatype Trainer = Trainer(
    split: FeatureTable -> Result<Split>,
    fitScaler: Split -> Result<Scaler<FeatureRow>>,
    scaleTest: (Scaler<FeatureRow>, Split) -> Option<string>,
    fitModel: (Split, Scaler<FeatureRow>) -> Result<Regressor>,
    score: (Regressor, Split, Scaler<FeatureRow>) -> Result<(real, real)>)

  /** Stands for the text of scikit-learn's `NotFittedError`. */
  const NotFitted := "NotFittedError: this estimator is not fitted yet"

  /** A `StandardScaler()` or `RandomForestRegressor()` that has been
      constructed but not fitted: using it raises. */
  const UnfittedScaler: Scaler<FeatureRow> := Scaler(_ => Err(NotFitted))
  const UnfittedForest: Regressor := Regressor(_ => Err(NotFitted))

  /** The dictionary returned by a successful `train`. */
  datatype TrainReport = TrainReport(trainScore: real, testScore: real, nSamples: nat)

  /** A result produced by the engine itself: the forecast plus the model
      version and training time reported in its metadata. */
  datatype Prediction = Prediction(forecast: Forecast, modelVersion: string, lastTrained: Option<string>)

  /** `predict` returns either the language-model service's dictionary or
      its own. */
  datatype PredictOutcome = FromGemini(status: GeminiStatus) | FromEngine(prediction: Prediction)

  /** `_calculate_confidence`: thresholds 3 and 6. */
  function CalculateConfidence(nCycles: int): (c: Confidence)
    ensures c == High <==> nCycles >= 6
    ensures c == Medium <==> 3 <= nCycles < 6
    ensures c == Low <==> nCycles < 3
  {
    if nCycles >= 6 then High else if nCycles >= 3 then Medium else Low
  }

  /** More history never lowers the confidence. */
  lemma ConfidenceMonotone(n: int, m: int)
    requires n <= m
    ensures Rank(CalculateConfidence(n)) <= Rank(CalculateConfidence(m))
  {
  }

  /** The prediction for an empty history: a 28-day cycle counted from
      today, with the luteal window before it and low confidence. */
  function DefaultPrediction(today: Date): (p: Prediction)
    ensures p.forecast.nextPeriodDate == today + 28 && p.forecast.cycleLength == 28.0
    ensures p.forecast.fertileWindow == LutealWindow(today + 28)
    ensures p.forecast.confidence == Low && p.forecast.modelUsed == Fallback
    ensures p.forecast.lastCycleDate == None && p.forecast.message == Some(FallbackMessage)
    ensures p.modelVersion == "fallback" && p.lastTrained == None
  {
    var next := today + 28;
    var f := PredictFertileWindow(next, Some(28.0));
    Prediction(
      Forecast(next, 28.0, Window(f.fertileWindowStart, f.fertileWindowEnd, f.ovulationDay),
        Low, Fallback, None, Some(FallbackMessage)),
      "fallback", None)
  }

  /** `_get_fallback_prediction(cycles)`. */
  function FallbackFor(cycles: seq<Cycle>, today: Date): (p: Prediction)
    ensures p.modelVersion == "fallback" && p.lastTrained == None
    ensures cycles == [] ==> p == DefaultPrediction(today)
    ensures cycles != [] ==> p.forecast == AverageForecast(cycles)
    ensures p.forecast.lastCycleDate.None? <==> cycles == []
  {
    if cycles == [] then DefaultPrediction(today)
    else Prediction(AverageForecast(cycles), "fallback", None)
  }

  /** `metadata.get('version', '1.0.0')`. */
  function VersionOf(m: Metadata): (v: string)
    ensures m.version.Some? ==> v == m.version.value
    ensures m.version.None? ==> v == ModelVersion
  {
    if m.version.Some? then m.version.value else ModelVersion
  }

  /** Whether the language-model service, called on `cycles`, answers with a
      success. */
  predicate GeminiSucceeds(
    cycles: seq<Cycle>, apiKeySet: bool, geminiAvailable: bool, reply: Result<string>,
    parseJson: string -> Option<Json>)
  {
    apiKeySet && geminiAvailable && reply.Ok?
    && MapReply(reply.value, parseJson(StripFences(reply.value)), cycles).GSuccess?
  }

  class CyclePredictor {
    var model: Option<Regressor>
    var scaler: Option<Scaler<FeatureRow>>
    var metadata: Metadata

    /** `__init__` with `_load_model`: nothing is loaded when prediction is
        disabled; a failed load leaves no model and the default metadata. */
    constructor (enabled: bool, stored: Result<Artifacts>)
      ensures !enabled ==> model == None && scaler == None && metadata == EmptyMetadata
      ensures enabled && stored.Ok? ==>
        model == Some(stored.value.model) && scaler == Some(stored.value.scaler)
        && metadata == stored.value.metadata
      ensures enabled && stored.Err? ==> model == None && scaler == None && metadata == LoadFailureMetadata
    {
      model := None;
      scaler := None;
      metadata := EmptyMetadata;
      if !enabled {
        // Prediction disabled: nothing is loaded.
      } else if stored.Ok? {
        model := Some(stored.value.model);
        scaler := Some(stored.value.scaler);
        metadata := stored.value.metadata;
      } else {
        model := None;
        scaler := None;
        metadata := LoadFailureMetadata;
      }
    }

    /** What the fitted regressor estimates for the latest feature row of the
        history, when both fitted objects are present, the history yields a
        row and neither call raises. */
    function MlEstimate(cycles: seq<Cycle>): (e: Option<real>)
      reads this
      ensures e.Some? <==>
        && model.Some? && scaler.Some? && |cycles| >= 3
        && var x := scaler.value.transform(LatestRow(SortByStart(cycles)));
           x.Ok? && model.value.estimate(x.value).Ok?
      ensures e.Some? ==>
        model.value.estimate(scaler.value.transform(LatestRow(SortByStart(cycles))).value) == Ok(e.value)
    {
      if model.None? || scaler.None? || |cycles| < 3 then None
      else
        match scaler.value.transform(LatestRow(SortByStart(cycles)))
        case Err(_) => None
        case Ok(x) =>
          match model.value.estimate(x)
          case Err(_) => None
          case Ok(e) => Some(e)
    }

    /** `train`. The scikit-learn steps are `tr`; `saveError` is what saving
        the artifacts raises, if anything. The scaler and the forest are
        replaced by new objects before they are fitted, so a step that
        raises leaves whatever was assigned before it; the metadata is
        replaced before saving, so a failed save still leaves it in
        place. */
    method Train(cycles: seq<Cycle>, saveModel: bool, now: string, tr: Trainer, saveError: Option<string>)
      returns (r: Result<TrainReport>)
      modifies this
      ensures |cycles| < MinCyclesForTraining ==>
        && r == Err("At least 3 cycles are required for training, got " + IntToString(|cycles|))
        && unchanged(this)
      ensures |cycles| >= MinCyclesForTraining ==>
        var sp := tr.split(TableOf(SortByStart(cycles)));
        && (sp.Err? ==> r == Err(sp.message) && unchanged(this))
        && (sp.Ok? ==>
          var sc := tr.fitScaler(sp.value);
          && (sc.Err? ==>
               r == Err(sc.message) && scaler == Some(UnfittedScaler) && model == old(model) && metadata == old(metadata))
          && (sc.Ok? ==>
            var te := tr.scaleTest(sc.value, sp.value);
            && scaler == Some(sc.value)
            && (te.Some? ==> r == Err(te.value) && model == old(model) && metadata == old(metadata))
            && (te.None? ==>
              var fm := tr.fitModel(sp.value, sc.value);
              && (fm.Err? ==> r == Err(fm.message) && model == Some(UnfittedForest) && metadata == old(metadata))
              && (fm.Ok? ==>
                var score := tr.score(fm.value, sp.value, sc.value);
                && model == Some(fm.value)
                && (score.Err? ==> r == Err(score.message) && metadata == old(metadata))
                && (score.Ok? ==>
                  && metadata == Metadata(Some(ModelVersion), Some(now), Some(|cycles| - 2), Some(|cycles|))
                  && (if saveModel && saveError.Some? then r == Err(saveError.value)
                      else r == Ok(TrainReport(score.value.0, score.value.1, |cycles| - 2))))))))
    {
      if |cycles| < MinCyclesForTraining {
        return Err("At least 3 cycles are required for training, got " + IntToString(|cycles|));
      }
      var pre := PreprocessData(cycles);
      var table := pre.value;
      var split := tr.split(table);
      if split.Err? {
        return Err(split.message);
      }
      scaler := Some(UnfittedScaler);
      var fitted := tr.fitScaler(split.value);
      if fitted.Err? {
        return Err(fitted.message);
      }
      scaler := Some(fitted.value);
      var testError := tr.scaleTest(fitted.value, split.value);
      if testError.Some? {
        return Err(testError.value);
      }
      model := Some(UnfittedForest);
      var forest := tr.fitModel(split.value, fitted.value);
      if forest.Err? {
        return Err(forest.message);
      }
      model := Some(forest.value);
      var scores := tr.score(forest.value, split.value, fitted.value);
      if scores.Err? {
        return Err(scores.message);
      }
      metadata := Metadata(Some(ModelVersion), Some(now), Some(|table.rows|), Some(|cycles|));
      if saveModel && saveError.Some? {
        return Err(saveError.value);
      }
      r := Ok(TrainReport(scores.value.0, scores.value.1, |table.rows|));
    }

    /** `_get_fallback_prediction`. */
    static method GetFallbackPrediction(cycles: seq<Cycle>, today: Date) returns (p: Prediction)
      ensures p == FallbackFor(cycles, today)
    {
      if cycles == [] {
        var nextPeriod := today + 28;
        var fertileInfo := PredictFertileWindow(nextPeriod, Some(28.0));
        return Prediction(
          Forecast(nextPeriod, 28.0,
            Window(fertileInfo.fertileWindowStart, fertileInfo.fertileWindowEnd, fertileInfo.ovulationDay),
            Low, Fallback, None, Some(FallbackMessage)),
          "fallback", None);
      }
      var sortedCycles := SortByStart(cycles);
      var cycleLengths := CycleLengths(sortedCycles);
      var avgCycleLength := if cycleLengths != [] then Mean(cycleLengths) else 28.0;
      avgCycleLength := Clamp(21.0, 45.0, avgCycleLength);
      var lastStart := MaxStart(cycles);
      var nextPeriod := lastStart + avgCycleLength.Floor;
      var fertileInfo := PredictFertileWindow(nextPeriod, Some(avgCycleLength));
      p := Prediction(
        Forecast(nextPeriod, avgCycleLength,
          Window(fertileInfo.fertileWindowStart, fertileInfo.fertileWindowEnd, fertileInfo.ovulationDay),
          if cycleLengths != [] then Medium else Low, Average, Some(lastStart),
          if cycleLengths == [] then Some(FallbackMessage) else None),
        "fallback", None);
    }

    /** The regressor branch of `predict` up to the estimate, on the
        sorted history: None where the source falls through to the average
        or raises into it. */
    method EstimateNextLength(cycles: seq<Cycle>, cyclesSorted: seq<Cycle>) returns (e: Option<real>)
      requires cycles != [] && cyclesSorted == SortByStart(cycles)
      ensures e == MlEstimate(cycles)
    {
      if model.None? || scaler.None? || |cyclesSorted| < 2 {
        return None;
      }
      var pre := PreprocessData(cyclesSorted);
      SortByStartIdempotent(cycles);
      if pre.Err? {
        return None;
      }
      var X := pre.value.rows;
      assert X[|X| - 1] == LatestRow(SortByStart(cycles));
      var xScaled := scaler.value.transform(X[|X| - 1]);
      if xScaled.Err? {
        return None;
      }
      var estimate := model.value.estimate(xScaled.value);
      if estimate.Err? {
        return None;
      }
      e := Some(estimate.value);
    }

    /** The rest of the regressor branch: the estimate kept within 21..45
        days and added to the latest start date. */
    method PredictWithModel(cycles: seq<Cycle>, cyclesSorted: seq<Cycle>) returns (p: Option<Prediction>)
      requires cycles != [] && cyclesSorted == SortByStart(cycles)
      ensures p.Some? <==> MlEstimate(cycles).Some?
      ensures p.Some? ==>
        var f := p.value.forecast;
        && |cycles| >= 3
        && f.modelUsed == MlModel
        && f.cycleLength == Clamp(21.0, 45.0, MlEstimate(cycles).value)
        && 21.0 <= f.cycleLength <= 45.0
        && f.lastCycleDate == Some(MaxStart(cycles))
        && f.nextPeriodDate == MaxStart(cycles) + f.cycleLength.Floor
        && f.fertileWindow == LutealWindow(f.nextPeriodDate)
        && f.confidence == CalculateConfidence(|cycles|)
        && p.value.modelVersion == VersionOf(metadata)
        && p.value.lastTrained == metadata.lastTrained
    {
      var estimate := EstimateNextLength(cycles, cyclesSorted);
      if estimate.None? {
        return None;
      }
      LastSortedIsLatest(cycles);
      var nextCycleLength := Clamp(21.0, 45.0, estimate.value);
      var lastCycle := cyclesSorted[|cyclesSorted| - 1];
      var nextPeriodDate := lastCycle.start + nextCycleLength.Floor;
      var fertileInfo := PredictFertileWindow(nextPeriodDate, Some(nextCycleLength));
      p := Some(Prediction(
        Forecast(nextPeriodDate, nextCycleLength,
          Window(fertileInfo.fertileWindowStart, fertileInfo.fertileWindowEnd, fertileInfo.ovulationDay),
          CalculateConfidence(|cyclesSorted|), MlModel, Some(lastCycle.start), None),
        VersionOf(metadata), metadata.lastTrained));
    }

    /** `predict`. The language-model service is consulted only when an API
        key is set; its inputs are passed through. Every failure on the
        regressor path (two records, a scaler or regressor that raises)
        lands on the average. */
    method Predict(
      cycles: seq<Cycle>, today: Date,
      apiKeySet: bool, geminiAvailable: bool, reply: Result<string>,
      parseJson: string -> Option<Json>, iso: Date -> string)
      returns (r: PredictOutcome)
      ensures cycles == [] ==> r == FromEngine(DefaultPrediction(today))
      ensures r.FromGemini? <==> cycles != [] && GeminiSucceeds(cycles, apiKeySet, geminiAvailable, reply, parseJson)
      ensures r.FromGemini? ==> r.status == MapReply(reply.value, parseJson(StripFences(reply.value)), cycles)
      ensures r.FromEngine? && cycles != [] ==>
        var f := r.prediction.forecast;
        && f.modelUsed != Fallback
        && 21.0 <= f.cycleLength <= 45.0
        && f.lastCycleDate == Some(MaxStart(cycles))
        && f.nextPeriodDate == MaxStart(cycles) + f.cycleLength.Floor
        && f.fertileWindow == LutealWindow(f.nextPeriodDate)
      ensures r.FromEngine? && cycles != [] ==>
        (r.prediction.forecast.modelUsed == MlModel <==> MlEstimate(cycles).Some?)
      ensures r.FromEngine? && r.prediction.forecast.modelUsed == MlModel ==>
        && |cycles| >= 3
        && r.prediction.forecast.cycleLength == Clamp(21.0, 45.0, MlEstimate(cycles).value)
        && r.prediction.forecast.confidence == CalculateConfidence(|cycles|)
        && r.prediction.modelVersion == VersionOf(metadata)
        && r.prediction.lastTrained == metadata.lastTrained
      ensures r.FromEngine? && r.prediction.forecast.modelUsed == Average ==>
        r.prediction == FallbackFor(cycles, today)
    {
      if cycles == [] {
        var p := GetFallbackPrediction(cycles, today);
        return FromEngine(p);
      }
      if apiKeySet {
        var geminiResult := GeminiService.PredictNextCycle(cycles, geminiAvailable, reply, parseJson, iso);
        if geminiResult.GSuccess? {
          return FromGemini(geminiResult);
        }
      }
      var cyclesSorted := SortByStart(cycles);
      var ml := PredictWithModel(cycles, cyclesSorted);
      if ml.Some? {
        return FromEngine(ml.value);
      }
      AverageForecastShape(cycles);
      var p := GetFallbackPrediction(cycles, today);
      r := FromEngine(p);
    }
  }
}

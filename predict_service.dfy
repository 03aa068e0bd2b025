/** backend/app/services/predict_service.py: an older copy of the backend
    engine with its own loading, training and prediction. Its `train` uses
    `train_test_split` without importing it, so training always raises,
    after replacing the model with an unfitted forest; asking such a forest
    for its truth value raises too, so a later `predict` raises instead of
    falling back. */
module PredictService {
  import opened Common
  import opened Features
  import opened Engine
  import CyclePredictorService

  /** The `model` attribute: none, a forest that was constructed but never
      fitted, or a fitted one. */
  datatype ModelSlot = NoModel | Unfitted | Fitted(regressor: Regressor)

  const TrainingFails := "name 'train_test_split' is not defined"
  const UnfittedTruth := "'RandomForestRegressor' object has no attribute 'estimators_'"

  /** `'high' if len(cycles) >= 3 else 'medium' if len(cycles) >= 1 else 'low'`. */
  function ServiceConfidence(nCycles: int): (c: Confidence)
    ensures c == High <==> nCycles >= 3
    ensures c == Medium <==> 1 <= nCycles < 3
    ensures c == Low <==> nCycles < 1
  {
    if nCycles >= 3 then High else if nCycles >= 1 then Medium else Low
  }

  /** The empty-history forecast, written with fixed offsets from today;
      the offsets are the 14/5/1-day window before a period 28 days away. */
  function EmptyForecast(today: Date): (f: Forecast)
    ensures f.nextPeriodDate == today + 28 && f.cycleLength == 28.0
    ensures f.fertileWindow == LutealWindow(f.nextPeriodDate)
    ensures f.confidence == Low && f.modelUsed == Fallback
    ensures f.lastCycleDate == None && f.message == Some(FallbackMessage)
  {
    Forecast(today + 28, 28.0, Window(today + 9, today + 15, today + 14), Low, Fallback, None, Some(FallbackMessage))
  }

  /** Both backend copies agree on the empty-history forecast, although one
      calls the fertile-window helper and the other writes the offsets out. */
  lemma EmptyForecastAgrees(today: Date)
    ensures EmptyForecast(today) == CyclePredictorService.DefaultPrediction(today).forecast
  {
  }

  /** `_fallback_prediction`. */
  function FallbackFor(cycles: seq<Cycle>, today: Date): (f: Forecast)
    ensures cycles == [] ==> f == EmptyForecast(today)
    ensures cycles != [] ==> f == AverageForecast(cycles)
    ensures f.lastCycleDate.None? <==> cycles == []
    ensures f.modelUsed == (if cycles == [] then Fallback else Average)
  {
    if cycles == [] then EmptyForecast(today) else AverageForecast(cycles)
  }

  class PredictService {
    var model: ModelSlot
    var scaler: Option<Scaler<FeatureRow>>
    var metadata: Json

    /** `__init__` with `_load_model`: each file is loaded in turn when it
        exists; the first one that fails to load stops the loading and
        clears the model and the scaler. */
    constructor (modelFile: Stored<Regressor>, scalerFile: Stored<Scaler<FeatureRow>>, metadataFile: Stored<Json>)
      ensures modelFile.Corrupt? || scalerFile.Corrupt? || metadataFile.Corrupt? ==>
        model == NoModel && scaler == None && metadata == JObject(map[])
      ensures !(modelFile.Corrupt? || scalerFile.Corrupt? || metadataFile.Corrupt?) ==>
        && model == (if modelFile.Present? then Fitted(modelFile.value) else NoModel)
        && scaler == (if scalerFile.Present? then Some(scalerFile.value) else None)
        && metadata == (if metadataFile.Present? then metadataFile.value else JObject(map[]))
    {
      model := NoModel;
      scaler := None;
      metadata := JObject(map[]);
      var failed := false;
      if modelFile.Present? {
        model := Fitted(modelFile.value);
      } else if modelFile.Corrupt? {
        failed := true;
      }
      if !failed {
        if scalerFile.Present? {
          scaler := Some(scalerFile.value);
        } else if scalerFile.Corrupt? {
          failed := true;
        }
      }
      if !failed {
        if metadataFile.Present? {
          metadata := metadataFile.value;
        } else if metadataFile.Corrupt? {
          failed := true;
        }
      }
      if failed {
        model := NoModel;
        scaler := None;
      }
    }

    /** What the fitted regressor estimates for the latest feature row, when
        there is one and neither call raises. */
    function MlEstimate(cycles: seq<Cycle>): (e: Option<real>)
      reads this
      ensures e.Some? <==>
        && model.Fitted? && scaler.Some? && |cycles| >= 3
        && var x := scaler.value.transform(LatestRow(SortByStart(cycles)));
           x.Ok? && model.regressor.estimate(x.value).Ok?
      ensures e.Some? ==>
        model.regressor.estimate(scaler.value.transform(LatestRow(SortByStart(cycles))).value) == Ok(e.value)
    {
      if !model.Fitted? || scaler.None? || |cycles| < 3 then None
      else
        match scaler.value.transform(LatestRow(SortByStart(cycles)))
        case Err(_) => None
        case Ok(x) =>
          match model.regressor.estimate(x)
          case Err(_) => None
          case Ok(e) => Some(e)
    }

    /** `train`: always raises. With a usable history it first replaces the
        model with an unfitted forest. */
    method Train(cycles: seq<Cycle>) returns (r: Result<()>)
      modifies this
      ensures r.Err?
      ensures |cycles| < 2 ==> r == Err("At least 2 cycles are required for prediction") && unchanged(this)
      ensures |cycles| == 2 ==> r == Err("Insufficient data to create features") && unchanged(this)
      ensures |cycles| >= 3 ==>
        r == Err(TrainingFails) && model == Unfitted && scaler == old(scaler) && metadata == old(metadata)
    {
      var pre := PreprocessData(cycles);
      if pre.Err? {
        return Err(pre.message);
      }
      model := Unfitted;
      r := Err(TrainingFails);
    }

    /** `_fallback_prediction`. */
    static method FallbackPrediction(cycles: seq<Cycle>, today: Date) returns (f: Forecast)
      ensures f == FallbackFor(cycles, today)
    {
      if cycles == [] {
        return Forecast(today + 28, 28.0, Window(today + 9, today + 15, today + 14),
          Low, Fallback, None, Some(FallbackMessage));
      }
      var sortedCycles := SortByStart(cycles);
      var cycleLengths := CycleLengths(sortedCycles);
      var avgCycleLength := if cycleLengths != [] then Mean(cycleLengths) else 28.0;
      avgCycleLength := Clamp(21.0, 45.0, avgCycleLength);
      var lastStart := MaxStart(cycles);
      var nextPeriod := lastStart + avgCycleLength.Floor;
      var ovulationDay := nextPeriod - 14;
      f := Forecast(nextPeriod, avgCycleLength, Window(ovulationDay - 5, ovulationDay + 1, ovulationDay),
        if cycleLengths != [] then Medium else Low, Average, Some(lastStart),
        if cycleLengths == [] then Some(FallbackMessage) else None);
    }

    /** The regressor branch of `predict`: None where the source falls
        back. */
    method PredictWithModel(cycles: seq<Cycle>) returns (p: Option<Forecast>)
      requires model.Fitted? && scaler.Some?
      ensures p.Some? <==> MlEstimate(cycles).Some?
      ensures p.Some? ==>
        var f := p.value;
        && |cycles| >= 3
        && f.modelUsed == MlModel
        && f.confidence == High
        && f.cycleLength == Clamp(21.0, 45.0, MlEstimate(cycles).value)
        && 21.0 <= f.cycleLength <= 45.0
        && f.lastCycleDate == Some(MaxStart(cycles))
        && f.nextPeriodDate == MaxStart(cycles) + f.cycleLength.Floor
        && f.fertileWindow == LutealWindow(f.nextPeriodDate)
    {
      var pre := PreprocessData(cycles);
      if pre.Err? {
        return None;
      }
      // `preprocess_data` raises rather than return an empty table, so the
      // `X.size == 0` test never holds.
      var X := pre.value.rows;
      var xScaled := scaler.value.transform(X[|X| - 1]);
      if xScaled.Err? {
        return None;
      }
      var estimate := model.regressor.estimate(xScaled.value);
      if estimate.Err? {
        return None;
      }
      var nextCycleLength := Clamp(21.0, 45.0, estimate.value);
      var lastDate := MaxStart(cycles);
      var nextPeriodDate := lastDate + nextCycleLength.Floor;
      var ovulationDay := nextPeriodDate - 14;
      var fertileStart := ovulationDay - 5;
      var fertileEnd := ovulationDay + 1;
      p := Some(Forecast(nextPeriodDate, nextCycleLength, Window(fertileStart, fertileEnd, ovulationDay),
        ServiceConfidence(|cycles|), MlModel, Some(lastDate), None));
    }

    /** `predict`. An unfitted forest makes it raise; any failure after
        that lands on the fallback. */
    method Predict(cycles: seq<Cycle>, today: Date) returns (r: Result<Forecast>)
      ensures r.Err? <==> model.Unfitted?
      ensures r.Err? ==> r.message == UnfittedTruth
      ensures r.Ok? ==> (r.value.modelUsed == MlModel <==> MlEstimate(cycles).Some?)
      ensures r.Ok? && r.value.modelUsed == MlModel ==>
        var f := r.value;
        && |cycles| >= 3
        && f.confidence == High
        && f.cycleLength == Clamp(21.0, 45.0, MlEstimate(cycles).value)
        && 21.0 <= f.cycleLength <= 45.0
        && f.lastCycleDate == Some(MaxStart(cycles))
        && f.nextPeriodDate == MaxStart(cycles) + f.cycleLength.Floor
        && f.fertileWindow == LutealWindow(f.nextPeriodDate)
      ensures r.Ok? && r.value.modelUsed != MlModel ==> r.value == FallbackFor(cycles, today)
    {
      if model.Unfitted? {
        return Err(UnfittedTruth);
      }
      if model.NoModel? || scaler.None? {
        var f := FallbackPrediction(cycles, today);
        return Ok(f);
      }
      var ml := PredictWithModel(cycles);
      if ml.Some? {
        return Ok(ml.value);
      }
      var f := FallbackPrediction(cycles, today);
      r := Ok(f);
    }
  }
}

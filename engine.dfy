/** The prediction record and the average-based fallback shared by the two
    backend copies of the engine (cycle_predictor.py and predict_service.py
    compute it with identical code). */
module Engine {
  import opened Common

  const FallbackMessage := "Using fallback prediction - not enough data for ML model"

  /** The `prediction` part of a result. */
  datatype Forecast = Forecast(
    nextPeriodDate: Date,
    cycleLength: real,
    fertileWindow: Window,
    confidence: Confidence,
    modelUsed: ModelUsed,
    lastCycleDate: Option<Date>,
    message: Option<string>)

  /** Mean gap of the sorted history (28 with a single record), kept within
      21..45 days. */
  function AverageLength(cycles: seq<Cycle>): (r: real)
    ensures 21.0 <= r <= 45.0
    ensures |cycles| >= 2 && 21.0 <= Mean(Gaps(SortByStart(cycles))) <= 45.0 ==> r == Mean(Gaps(SortByStart(cycles)))
    ensures |cycles| < 2 ==> r == 28.0
  {
    var g := Gaps(SortByStart(cycles));
    assert |cycles| == 1 ==> SortByStart(cycles) == cycles;
    Clamp(21.0, 45.0, if g != [] then Mean(g) else 28.0)
  }

  /** The loop of `_get_fallback_prediction` (and `_fallback_prediction`)
      collecting the day counts between consecutive sorted records. */
  method CycleLengths(sortedCycles: seq<Cycle>) returns (cycleLengths: seq<int>)
    requires sortedCycles != []
    ensures cycleLengths == Gaps(sortedCycles)
  {
    cycleLengths := [];
    for i := 1 to |sortedCycles|
      invariant cycleLengths == Gaps(sortedCycles)[..i - 1]
    {
      GapsStep(sortedCycles, i);
      cycleLengths := cycleLengths + [sortedCycles[i].start - sortedCycles[i - 1].start];
    }
  }

  /** The average-based forecast for a non-empty history, anchored at its
      latest start date. */
  function AverageForecast(cycles: seq<Cycle>): (f: Forecast)
    requires cycles != []
    ensures f.cycleLength == AverageLength(cycles)
    ensures f.lastCycleDate == Some(MaxStart(cycles))
    ensures f.nextPeriodDate == MaxStart(cycles) + f.cycleLength.Floor
    ensures f.fertileWindow == LutealWindow(f.nextPeriodDate)
    ensures f.modelUsed == Average
    ensures f.confidence == (if |cycles| >= 2 then Medium else Low)
    ensures f.message.None? <==> |cycles| >= 2
  {
    var last := MaxStart(cycles);
    var len := AverageLength(cycles);
    var next := last + len.Floor;
    Forecast(next, len, LutealWindow(next),
      if |cycles| >= 2 then Medium else Low, Average, Some(last),
      if |cycles| >= 2 then None else Some(FallbackMessage))
  }

  /** The forecast lands 21 to 45 days after the latest record, with
      ovulation 14 days before it; a single record means 28 days, low
      confidence and the fallback message. */
  lemma AverageForecastShape(cycles: seq<Cycle>)
    requires cycles != []
    ensures var f := AverageForecast(cycles);
      && 21.0 <= f.cycleLength <= 45.0
      && f.lastCycleDate == Some(MaxStart(cycles))
      && 21 <= f.nextPeriodDate - MaxStart(cycles) <= 45
      && f.fertileWindow.ovulation == f.nextPeriodDate - 14
      && f.fertileWindow.start == f.fertileWindow.ovulation - 5
      && f.fertileWindow.end == f.fertileWindow.ovulation + 1
      && (f.confidence == Low <==> |cycles| == 1)
      && (f.message.Some? <==> |cycles| == 1)
      && (|cycles| == 1 ==> f.cycleLength == 28.0 && f.nextPeriodDate == cycles[0].start + 28)
  {
    var len := AverageLength(cycles);
    FloorWithin(len, 21, 45);
  }

  lemma FloorWithin(x: real, lo: int, hi: int)
    requires lo as real <= x <= hi as real
    ensures lo <= x.Floor <= hi
  {
  }

  /** The average gap is the span between the earliest and the latest
      record divided by the number of gaps, so the input order does not
      matter. */
  lemma AverageLengthIsSpan(cycles: seq<Cycle>)
    requires |cycles| >= 2
    ensures var s := SortByStart(cycles);
      && |s| == |cycles|
      && s[|s| - 1].start == MaxStart(cycles)
      && AverageLength(cycles) ==
         Clamp(21.0, 45.0, (MaxStart(cycles) - s[0].start) as real / (|cycles| - 1) as real)
  {
    var s := SortByStart(cycles);
    LastSortedIsLatest(cycles);
    GapsTelescope(s);
  }

  /** Records exactly 28 days apart average to 28 days. */
  lemma AverageOfRegularHistory(cycles: seq<Cycle>)
    requires |cycles| >= 2
    requires SortedByStart(cycles)
    requires forall i :: 0 <= i < |cycles| - 1 ==> cycles[i + 1].start - cycles[i].start == 28
    ensures AverageLength(cycles) == 28.0
  {
    SortSortedIsIdentity(cycles);
    MeanWithin(Gaps(cycles), 28, 28);
  }

  /** Two records on 2023-01-01 and 2023-02-01 give a 31-day cycle, a next
      period on 2023-03-04 and medium confidence. */
  lemma TwoRecordScenario(a: Cycle, b: Cycle)
    requires a.start == 738521 && b.start == 738552
    ensures var f := AverageForecast([a, b]);
      && f.cycleLength == 31.0
      && f.nextPeriodDate == 738583
      && f.confidence == Medium
      && f.fertileWindow == Window(738564, 738570, 738569)
  {
    SortSortedIsIdentity([a, b]);
    assert Gaps([a, b]) == [31];
    assert [31][..0] == [];
    assert Mean([31]) == 31.0;
    assert MaxStart([a, b]) == 738552;
  }
}

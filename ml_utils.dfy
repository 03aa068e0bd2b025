/** backend/app/core/ml_utils.py: history statistics and the fertile-window
    calculator used by the backend predictor. */
module MlUtils {
  import opened Common

  /** The statistics dictionary returned by `calculate_cycle_metrics`. */
  datatype CycleMetrics = CycleMetrics(
    avgCycleLength: real,
    avgPeriodLength: real,
    cycleStd: Spread,
    periodStd: Spread,
    cycleRange: (int, int),
    periodRange: (int, int),
    cycleCount: nat)

  /** Returned for a history of fewer than two records. */
  const DefaultMetrics := CycleMetrics(28.0, 5.0, Zero, Zero, (21, 35), (3, 7), 0)

  function SpreadOf(xs: seq<int>): Spread
  {
    if |xs| > 1 then StdOf(xs) else Zero
  }

  method CalculateCycleMetrics(cycles: seq<Cycle>) returns (m: CycleMetrics)
    ensures |cycles| < 2 ==> m == DefaultMetrics
    ensures |cycles| >= 2 ==>
      var s := SortByStart(cycles);
      var g, p := Gaps(s), PeriodsBefore(s);
      && m.cycleCount == |g| == |cycles| - 1
      && m.avgCycleLength == Mean(g)
      && m.cycleRange == (Min(g), Max(g))
      && 0 <= m.cycleRange.0
      && m.cycleRange.0 as real <= m.avgCycleLength <= m.cycleRange.1 as real
      && m.avgPeriodLength == Mean(p)
      && m.periodRange == (Min(p), Max(p))
      && m.cycleStd == SpreadOf(g)
      && m.periodStd == SpreadOf(p)
  {
    if |cycles| < 2 {
      return DefaultMetrics;
    }
    var sorted := SortByStart(cycles);
    SortByStartCorrect(cycles);
    var cycleLengths: seq<int> := [];
    for i := 1 to |sorted|
      invariant cycleLengths == Gaps(sorted)[..i - 1]
    {
      GapsStep(sorted, i);
      cycleLengths := cycleLengths + [sorted[i].start - sorted[i - 1].start];
    }
    assert cycleLengths == Gaps(sorted);
    var periodLengths := PeriodsBefore(sorted);
    MeanBetweenMinAndMax(cycleLengths);
    m := CycleMetrics(
      if |cycleLengths| > 0 then Mean(cycleLengths) else 28.0,
      if |periodLengths| > 0 then Mean(periodLengths) else 5.0,
      if |cycleLengths| > 1 then StdOf(cycleLengths) else Zero,
      if |periodLengths| > 1 then StdOf(periodLengths) else Zero,
      (if |cycleLengths| > 0 then Min(cycleLengths) else 21, if |cycleLengths| > 0 then Max(cycleLengths) else 35),
      (if |periodLengths| > 0 then Min(periodLengths) else 3, if |periodLengths| > 0 then Max(periodLengths) else 7),
      |cycleLengths|);
  }

  /** The dictionary returned by `predict_fertile_window`. */
  datatype FertileInfo = FertileInfo(
    ovulationDay: Date,
    fertileWindowStart: Date,
    fertileWindowEnd: Date,
    nextPeriod: Date,
    cycleLength: real)

  /** `cycle_length or 28`: absent and zero both mean 28. */
  function LengthOrDefault(cycleLength: Option<real>): (r: real)
    ensures cycleLength.Some? && cycleLength.value != 0.0 ==> r == cycleLength.value
    ensures cycleLength == None || cycleLength == Some(0.0) ==> r == 28.0
    ensures r == 28.0 <==> (cycleLength == None || cycleLength == Some(0.0) || cycleLength == Some(28.0))
    ensures r != 0.0
  {
    match cycleLength
    case Some(c) => if c != 0.0 then c else 28.0
    case None => 28.0
  }

  /** `predict_fertile_window`: the luteal window before `nextPeriod`, with
      the next period and the defaulted cycle length echoed back. */
  function PredictFertileWindow(nextPeriod: Date, cycleLength: Option<real>): (f: FertileInfo)
    ensures f.ovulationDay == nextPeriod - 14
    ensures f.fertileWindowStart == f.ovulationDay - 5 && f.fertileWindowEnd == f.ovulationDay + 1
    ensures f.nextPeriod == nextPeriod
    ensures f.cycleLength == LengthOrDefault(cycleLength)
  {
    var w := LutealWindow(nextPeriod);
    FertileInfo(w.ovulation, w.start, w.end, nextPeriod, LengthOrDefault(cycleLength))
  }

  /** The window is 14/5/1 days around the next period whatever cycle length
      is given; the length is only echoed back. */
  lemma FertileWindowIgnoresCycleLength(nextPeriod: Date, a: Option<real>, b: Option<real>)
    ensures var fa, fb := PredictFertileWindow(nextPeriod, a), PredictFertileWindow(nextPeriod, b);
      && fa.(cycleLength := 0.0) == fb.(cycleLength := 0.0)
      && fa.ovulationDay == nextPeriod - 14
      && fa.fertileWindowStart < fa.ovulationDay < fa.fertileWindowEnd
      && fa.fertileWindowEnd - fa.fertileWindowStart == 6
      && fa.nextPeriod == nextPeriod
  {
  }

  /** For a next period on 2024-03-01 (ordinal 738946) the ovulation day is
      2024-02-16, the window 2024-02-11 to 2024-02-17. */
  lemma FertileWindowExample()
    ensures var f := PredictFertileWindow(738946, None);
      f.ovulationDay == 738932 && f.fertileWindowStart == 738927 && f.fertileWindowEnd == 738933
      && f.cycleLength == 28.0
  {
  }
}

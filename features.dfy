/** The feature table shared by the two backend copies of the engine
    (`preprocess_data` in cycle_predictor.py and predict_service.py): one row
    per consecutive pair of sorted records, once two gaps have been seen. */
module Features {
  import opened Common

  /** `[prev_cycle_length, prev_period_length, avg_cycle_length,
      avg_period_length, cycle_std, period_std]`. */
  datatype FeatureRow = FeatureRow(
    prevCycleLength: int,
    prevPeriodLength: int,
    avgCycleLength: real,
    avgPeriodLength: real,
    cycleStd: Spread,
    periodStd: Spread)

  /** `(X, y)`: feature rows and their targets. */
  datatype FeatureTable = FeatureTable(rows: seq<FeatureRow>, targets: seq<int>)

  /** The row emitted when the gap with index `k` (k >= 1) is appended: the
      latest gap and period length, and the running means and spreads over
      everything seen so far. */
  function RowAt(g: seq<int>, p: seq<int>, k: nat): FeatureRow
    requires 1 <= k < |g| && |p| == |g|
  {
    FeatureRow(g[k], p[k], Mean(g[..k + 1]), Mean(p[..k + 1]), StdOf(g[..k + 1]), StdOf(p[..k + 1]))
  }

  /** The table computed from the sorted history `s`: row k is emitted when
      gap k+1 is appended, and its target is that same gap. */
  function TableOf(s: seq<Cycle>): (t: FeatureTable)
    ensures |t.rows| == |t.targets| == if |s| >= 2 then |s| - 2 else 0
  {
    if |s| < 2 then FeatureTable([], [])
    else
      var g, p := Gaps(s), PeriodsBefore(s);
      FeatureTable(
        seq(|s| - 2, k requires 0 <= k < |s| - 2 => RowAt(g, p, k + 1)),
        seq(|s| - 2, k requires 0 <= k < |s| - 2 => g[k + 1]))
  }

  /** The row for the latest gap, used for prediction. */
  function LatestRow(s: seq<Cycle>): FeatureRow
    requires |s| >= 3
  {
    var rows := TableOf(s).rows;
    rows[|rows| - 1]
  }

  /** Row k of the table, and its target, in terms of the gaps. */
  lemma TableEntry(s: seq<Cycle>, k: nat)
    requires k + 2 < |s|
    ensures TableOf(s).rows[k] == RowAt(Gaps(s), PeriodsBefore(s), k + 1)
    ensures TableOf(s).targets[k] == Gaps(s)[k + 1] == s[k + 2].start - s[k + 1].start
  {
    var g, p := Gaps(s), PeriodsBefore(s);
    var t := FeatureTable(
      seq(|s| - 2, j requires 0 <= j < |s| - 2 => RowAt(g, p, j + 1)),
      seq(|s| - 2, j requires 0 <= j < |s| - 2 => g[j + 1]));
    assert TableOf(s) == t;
    assert t.rows[k] == RowAt(g, p, k + 1);
    assert t.targets[k] == g[k + 1];
  }

  /** What a row means: its first feature is its own target (the latest gap,
      which is also what the model is trained to predict), its period
      feature is the period of the record opening that gap, and, on a sorted
      history, targets are never negative. */
  lemma FeatureTableMeaning(s: seq<Cycle>, k: nat)
    requires SortedByStart(s)
    requires k < |TableOf(s).rows|
    ensures var t := TableOf(s);
      && t.rows[k].prevCycleLength == t.targets[k] >= 0
      && t.targets[k] == s[k + 2].start - s[k + 1].start
      && t.rows[k].prevPeriodLength == PeriodOrDefault(s[k + 1])
  {
    TableEntry(s, k);
    assert s[k + 1].start <= s[k + 2].start;
  }

  /** A row's running mean lies between the smallest and largest gap seen
      so far. */
  lemma FeatureTableMeanBounds(s: seq<Cycle>, k: nat)
    requires k < |TableOf(s).rows|
    ensures var seen := Gaps(s)[..k + 2];
      Min(seen) as real <= TableOf(s).rows[k].avgCycleLength <= Max(seen) as real
  {
    TableEntry(s, k);
    MeanBetweenMinAndMax(Gaps(s)[..k + 2]);
  }

  /** Period lengths accepted by the prediction endpoint are 1..14 days, so
      every running period mean is too. */
  lemma FeatureTablePeriodMean(s: seq<Cycle>, k: nat)
    requires forall i :: 0 <= i < |s| ==> 1 <= PeriodOrDefault(s[i]) <= 14
    requires k < |TableOf(s).rows|
    ensures 1.0 <= TableOf(s).rows[k].avgPeriodLength <= 14.0
  {
    var g, p := Gaps(s), PeriodsBefore(s);
    assert TableOf(s).rows[k] == RowAt(g, p, k + 1);
    MeanWithin(p[..k + 2], 1, 14);
  }

  /** The loop of `preprocess_data`, shared verbatim by both backend copies:
      the sorted history walked pair by pair, emitting a row once two gaps
      have been seen. */
  method BuildTable(s: seq<Cycle>) returns (t: FeatureTable)
    requires |s| >= 2
    ensures t == TableOf(s)
  {
    ghost var g, p := Gaps(s), PeriodsBefore(s);
    var X: seq<FeatureRow> := [];
    var y: seq<int> := [];
    var cycleLengths: seq<int> := [];
    var periodLengths: seq<int> := [];
    for i := 1 to |s|
      invariant cycleLengths == g[..i - 1] && periodLengths == p[..i - 1]
      invariant |X| == |y| == if i >= 2 then i - 2 else 0
      invariant forall k :: 0 <= k < |X| ==> X[k] == RowAt(g, p, k + 1) && y[k] == g[k + 1]
    {
      var cycleLength := s[i].start - s[i - 1].start;
      GapsStep(s, i);
      cycleLengths := cycleLengths + [cycleLength];
      PeriodsStep(s, i);
      periodLengths := periodLengths + [PeriodOrDefault(s[i - 1])];
      if |cycleLengths| >= 2 {
        var features := FeatureRow(
          cycleLengths[|cycleLengths| - 1], periodLengths[|periodLengths| - 1],
          Mean(cycleLengths), Mean(periodLengths),
          StdOf(cycleLengths), StdOf(periodLengths));
        assert features == RowAt(g, p, i - 1);
        X := X + [features];
        y := y + [cycleLength];
      }
    }
    TableFromRows(s, X, y);
    t := FeatureTable(X, y);
  }

  /** Rows and targets that agree with the table entry by entry are the
      table. */
  lemma TableFromRows(s: seq<Cycle>, X: seq<FeatureRow>, y: seq<int>)
    requires |s| >= 2 && |X| == |y| == |s| - 2
    requires forall k :: 0 <= k < |X| ==> X[k] == RowAt(Gaps(s), PeriodsBefore(s), k + 1) && y[k] == Gaps(s)[k + 1]
    ensures FeatureTable(X, y) == TableOf(s)
  {
  }

  /** `preprocess_data`, identical in both backend copies: fewer than two
      records, or exactly two (which yield no row), are errors; otherwise
      the table of the sorted history. */
  method PreprocessData(cycles: seq<Cycle>) returns (r: Result<FeatureTable>)
    ensures |cycles| < 2 ==> r == Err("At least 2 cycles are required for prediction")
    ensures |cycles| == 2 ==> r == Err("Insufficient data to create features")
    ensures |cycles| >= 3 ==> r == Ok(TableOf(SortByStart(cycles)))
    ensures r.Ok? ==> |r.value.rows| == |cycles| - 2 > 0
  {
    if |cycles| < 2 {
      return Err("At least 2 cycles are required for prediction");
    }
    var sorted := SortByStart(cycles);
    SortByStartCorrect(cycles);
    var t := BuildTable(sorted);
    if |t.rows| == 0 {
      return Err("Insufficient data to create features");
    }
    r := Ok(t);
  }
}

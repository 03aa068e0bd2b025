/** Types and helpers shared by every copy of the cycle-prediction engine:
    cycle records, the stable sort by start date, inter-start gaps, means,
    clamping, Python's rounding, confidence tiers and the luteal-phase window. */
module Common {

  datatype Option<T> = None | Some(value: T)

  /** A computation that either yields a value or raises an exception
      carrying a message. */
  datatype Result<T> = Ok(value: T) | Err(message: string)

  /** A calendar date as a day ordinal: `(a - b).days` is `a - b`,
      `d + timedelta(days = k)` is `d + k`. */
  type Date = int

  /** Calendar month of a date; extracting it from an ordinal is left abstract. */
  type MonthNumber = m: int | 1 <= m <= 12 witness 1

  /** Value stored under a record's `end_date` key. */
  datatype EndValue = EndOn(day: Date) | EndText(text: string) | EndNull

  /** One logged cycle. `None` stands for a key that is absent from the record. */
  datatype Cycle = Cycle(
    start: Date,
    periodLength: Option<int>,
    flow: Option<string>,
    symptoms: seq<string>,
    endDate: Option<EndValue>,
    cycleLength: Option<int>)

  datatype Confidence = Low | Medium | High

  function Rank(c: Confidence): nat
  {
    match c
    case Low => 0
    case Medium => 1
    case High => 2
  }

  datatype ModelUsed = MlModel | Average | Fallback

  /** `np.std` of some observations, kept symbolic, or the literal 0. */
  datatype Spread = Zero | StdOf(observations: seq<int>)

  /** A fitted feature scaler (`StandardScaler.transform`) and a fitted
      regressor (`RandomForestRegressor.predict`); either may raise. */
  datatype Scaler<-R> = Scaler(transform: R -> Result<seq<real>>)
  datatype Regressor = Regressor(estimate: seq<real> -> Result<real>)

  /** A file the engine may load at start-up: absent, present but
      unreadable (loading raises), or holding a value. */
  datatype Stored<T> = Missing | Corrupt | Present(value: T)

  /** A parsed JSON value (`json.loads`): an object, a string, or anything
      else. */
  datatype Json = JObject(fields: map<string, Json>) | JString(text: string) | JOther

  /** `prediction.get('confidence', 'medium')` on a parsed reply. */
  function ConfidenceOf(fields: map<string, Json>): (c: Json)
    ensures "confidence" in fields ==> c == fields["confidence"]
    ensures "confidence" !in fields ==> c == JString("medium")
  {
    if "confidence" in fields then fields["confidence"] else JString("medium")
  }

  /** Fertile window around an ovulation day. */
  datatype Window = Window(start: Date, end: Date, ovulation: Date)

  /** Ovulation 14 days before the next period; the window runs from 5 days
      before ovulation to 1 day after it. */
  function LutealWindow(nextPeriod: Date): Window
  {
    var ovulation := nextPeriod - 14;
    Window(ovulation - 5, ovulation + 1, ovulation)
  }

  lemma LutealWindowShape(nextPeriod: Date)
    ensures var w := LutealWindow(nextPeriod);
      && w.ovulation + 14 == nextPeriod
      && w.start < w.ovulation < w.end
      && w.end - w.start == 6
      && w.ovulation - w.start == 5
  {
  }

  // ---------------------------------------------------------------------
  // Stable sort by start date (Python's `sorted(cycles, key=start_date)`)
  // ---------------------------------------------------------------------

  predicate SortedByStart(s: seq<Cycle>)
  {
    forall i, j :: 0 <= i < j < |s| ==> s[i].start <= s[j].start
  }

  /** Places `c` before the first element whose start is not earlier, so that
      `c` stays ahead of the records with the same start date. */
  function InsertByStart(c: Cycle, s: seq<Cycle>): (r: seq<Cycle>)
    ensures |r| == |s| + 1
  {
    if s == [] || c.start <= s[0].start then [c] + s
    else [s[0]] + InsertByStart(c, s[1..])
  }

  function SortByStart(s: seq<Cycle>): (r: seq<Cycle>)
    ensures |r| == |s|
  {
    if s == [] then [] else InsertByStart(s[0], SortByStart(s[1..]))
  }

  /** The records of `s` that start on day `d`, in their order in `s`. */
  function WithStart(s: seq<Cycle>, d: Date): seq<Cycle>
  {
    if s == [] then []
    else (if s[0].start == d then [s[0]] else []) + WithStart(s[1..], d)
  }

  lemma {:induction false} InsertByStartPermutes(c: Cycle, s: seq<Cycle>)
    ensures multiset(InsertByStart(c, s)) == multiset(s) + multiset{c}
  {
    if s != [] && c.start > s[0].start {
      InsertByStartPermutes(c, s[1..]);
      assert s == [s[0]] + s[1..];
    }
  }

  lemma {:induction false} InsertByStartSorted(c: Cycle, s: seq<Cycle>)
    requires SortedByStart(s)
    ensures SortedByStart(InsertByStart(c, s))
  {
    if s != [] && c.start > s[0].start {
      InsertByStartSorted(c, s[1..]);
      InsertByStartPermutes(c, s[1..]);
      var t := InsertByStart(c, s[1..]);
      forall i | 0 <= i < |t| ensures s[0].start <= t[i].start {
        assert t[i] in multiset(s[1..]) + multiset{c};
        if t[i] != c {
          assert t[i] in s[1..];
        }
      }
    }
  }

  lemma {:induction false} InsertByStartKeepsOrder(c: Cycle, s: seq<Cycle>, d: Date)
    ensures WithStart(InsertByStart(c, s), d) == (if c.start == d then [c] else []) + WithStart(s, d)
  {
    if s == [] || c.start <= s[0].start {
      assert ([c] + s)[1..] == s;
    } else {
      InsertByStartKeepsOrder(c, s[1..], d);
      var t := InsertByStart(c, s[1..]);
      var w := WithStart(s[1..], d);
      assert ([s[0]] + t)[1..] == t;
      assert WithStart(t, d) == (if c.start == d then [c] else []) + w;
      assert WithStart(s, d) == (if s[0].start == d then [s[0]] else []) + w;
      if c.start == d {
        assert s[0].start != d;
        assert WithStart(s, d) == w;
      } else {
        assert WithStart(t, d) == w;
      }
    }
  }

  lemma {:induction false} SortByStartCorrect(s: seq<Cycle>)
    ensures SortedByStart(SortByStart(s))
    ensures multiset(SortByStart(s)) == multiset(s)
    ensures |SortByStart(s)| == |s|
    ensures forall d :: WithStart(SortByStart(s), d) == WithStart(s, d)
  {
    if s != [] {
      SortByStartCorrect(s[1..]);
      InsertByStartSorted(s[0], SortByStart(s[1..]));
      InsertByStartPermutes(s[0], SortByStart(s[1..]));
      forall d ensures WithStart(SortByStart(s), d) == WithStart(s, d) {
        InsertByStartKeepsOrder(s[0], SortByStart(s[1..]), d);
      }
      assert s == [s[0]] + s[1..];
    }
  }

  /** Sorting a history that is already in order changes nothing, so sorting
      twice (as the engine does) is the same as sorting once. */
  lemma {:induction false} SortSortedIsIdentity(s: seq<Cycle>)
    requires SortedByStart(s)
    ensures SortByStart(s) == s
  {
    if s != [] {
      SortSortedIsIdentity(s[1..]);
    }
  }

  lemma SortByStartIdempotent(s: seq<Cycle>)
    ensures SortByStart(SortByStart(s)) == SortByStart(s)
  {
    SortByStartCorrect(s);
    SortSortedIsIdentity(SortByStart(s));
  }

  /** Latest start date, as `max(cycles, key=start_date)['start_date']`. */
  function MaxStart(s: seq<Cycle>): (m: Date)
    requires |s| > 0
    ensures forall i :: 0 <= i < |s| ==> s[i].start <= m
    ensures exists i :: 0 <= i < |s| && s[i].start == m
  {
    if |s| == 1 then s[0].start
    else
      var rest := MaxStart(s[1..]);
      assert forall i :: 1 <= i < |s| ==> s[i] == s[1..][i - 1];
      if s[0].start >= rest then s[0].start else rest
  }

  /** The record that ends a sorted history starts on the latest date. */
  lemma LastSortedIsLatest(s: seq<Cycle>)
    requires |s| > 0
    ensures |SortByStart(s)| == |s|
    ensures SortByStart(s)[|s| - 1].start == MaxStart(s)
  {
    SortByStartCorrect(s);
    var t := SortByStart(s);
    var i :| 0 <= i < |s| && s[i].start == MaxStart(s);
    assert s[i] in multiset(t);
    assert t[|t| - 1] in multiset(s);
    var k :| 0 <= k < |t| && t[k] == s[i];
    var j :| 0 <= j < |s| && s[j] == t[|t| - 1];
    assert s[j].start <= MaxStart(s);
    assert k == |t| - 1 || t[k].start <= t[|t| - 1].start;
  }

  /** Index of the last record of `s` that starts on day `d`, or -1. */
  function LastAt(s: seq<Cycle>, d: Date): (i: int)
    ensures -1 <= i < |s|
    ensures i >= 0 ==> s[i].start == d
    ensures forall j :: i < j < |s| ==> s[j].start != d
  {
    if s == [] then -1
    else if s[|s| - 1].start == d then |s| - 1
    else LastAt(s[..|s| - 1], d)
  }

  lemma {:induction false} WithStartNone(s: seq<Cycle>, d: Date)
    requires forall j :: 0 <= j < |s| ==> s[j].start != d
    ensures WithStart(s, d) == []
  {
    if s != [] {
      WithStartNone(s[1..], d);
    }
  }

  /** The last record of `s` on day `d` ends the records on that day. */
  lemma {:induction false} WithStartLast(s: seq<Cycle>, d: Date, i: nat)
    requires i < |s| && s[i].start == d
    requires forall j :: i < j < |s| ==> s[j].start != d
    ensures WithStart(s, d) != [] && WithStart(s, d)[|WithStart(s, d)| - 1] == s[i]
  {
    if i == 0 {
      WithStartNone(s[1..], d);
    } else {
      WithStartLast(s[1..], d, i - 1);
    }
  }

  /** Two sequences with the same records on day `d`, the first ending on
      day `d`, agree on the last record of that day. */
  lemma LastOfSameDay(t: seq<Cycle>, s: seq<Cycle>, d: Date)
    requires t != [] && t[|t| - 1].start == d
    requires WithStart(t, d) == WithStart(s, d)
    requires LastAt(s, d) >= 0
    ensures t[|t| - 1] == s[LastAt(s, d)]
  {
    WithStartLast(t, d, |t| - 1);
    WithStartLast(s, d, LastAt(s, d));
  }

  /** The latest start date occurs, so `LastAt` finds it. */
  lemma LastAtMaxStart(s: seq<Cycle>)
    requires |s| > 0
    ensures LastAt(s, MaxStart(s)) >= 0
  {
    var k :| 0 <= k < |s| && s[k].start == MaxStart(s);
    assert LastAt(s, MaxStart(s)) >= k;
  }

  /** Because the sort is stable, `sorted(cycles)[-1]` is the last record,
      in input order, among those that start on the latest date. */
  lemma LastSortedIsLastLatest(s: seq<Cycle>)
    requires |s| > 0
    ensures LastAt(s, MaxStart(s)) >= 0
    ensures SortByStart(s)[|s| - 1] == s[LastAt(s, MaxStart(s))]
  {
    var m := MaxStart(s);
    LastAtMaxStart(s);
    LastSortedIsLatest(s);
    assert WithStart(SortByStart(s), m) == WithStart(s, m) by {
      SortByStartCorrect(s);
    }
    LastOfSameDay(SortByStart(s), s, m);
  }

  // ---------------------------------------------------------------------
  // Gaps, period lengths, sums and means
  // ---------------------------------------------------------------------

  /** Days between consecutive start dates: `(s[i+1] - s[i]).days`. */
  function Gaps(s: seq<Cycle>): (g: seq<int>)
    ensures |g| == if s == [] then 0 else |s| - 1
  {
    if |s| <= 1 then [] else seq(|s| - 1, i requires 0 <= i < |s| - 1 => s[i + 1].start - s[i].start)
  }

  /** The gaps up to record i are those up to record i - 1 and one more. */
  lemma GapsStep(s: seq<Cycle>, i: nat)
    requires 1 <= i < |s|
    ensures Gaps(s)[..i] == Gaps(s)[..i - 1] + [s[i].start - s[i - 1].start]
  {
    var g := Gaps(s);
    PrefixSnoc(g, i);
    assert g[i - 1] == s[i].start - s[i - 1].start;
  }

  lemma PeriodsStep(s: seq<Cycle>, i: nat)
    requires 1 <= i < |s|
    ensures PeriodsBefore(s)[..i] == PeriodsBefore(s)[..i - 1] + [PeriodOrDefault(s[i - 1])]
  {
    var p := PeriodsBefore(s);
    PrefixSnoc(p, i);
    assert p[i - 1] == PeriodOrDefault(s[i - 1]);
  }

  /** A prefix one longer is the shorter prefix and the next element. */
  lemma PrefixSnoc(xs: seq<int>, i: nat)
    requires 1 <= i <= |xs|
    ensures xs[..i] == xs[..i - 1] + [xs[i - 1]]
  {
  }

  /** `record.get('period_length', 5)`. */
  function PeriodOrDefault(c: Cycle): int
  {
    match c.periodLength
    case Some(p) => p
    case None => 5
  }

  /** The period length of every record but the last, defaulting to 5. */
  function PeriodsBefore(s: seq<Cycle>): (p: seq<int>)
    ensures |p| == if s == [] then 0 else |s| - 1
  {
    if |s| <= 1 then [] else seq(|s| - 1, i requires 0 <= i < |s| - 1 => PeriodOrDefault(s[i]))
  }

  lemma SortedGapsNonNegative(s: seq<Cycle>)
    requires SortedByStart(s)
    ensures forall i :: 0 <= i < |Gaps(s)| ==> Gaps(s)[i] >= 0
  {
  }

  /** The gaps add up to the span from the first start to the last. */
  lemma {:induction false} GapsTelescope(s: seq<Cycle>)
    requires |s| >= 1
    ensures Sum(Gaps(s)) == s[|s| - 1].start - s[0].start
  {
    if |s| >= 2 {
      var t := s[..|s| - 1];
      GapsTelescope(t);
      GapsOfInit(s);
      var g := Gaps(s);
      assert Sum(g) == Sum(g[..|g| - 1]) + g[|g| - 1];
    }
  }

  /** Dropping the last record drops the last gap. */
  lemma GapsOfInit(s: seq<Cycle>)
    requires |s| >= 2
    ensures Gaps(s[..|s| - 1]) == Gaps(s)[..|s| - 2]
  {
    var t, g := s[..|s| - 1], Gaps(s);
    forall j | 0 <= j < |s| - 2
      ensures Gaps(t)[j] == g[j]
    {
      assert t[j] == s[j] && t[j + 1] == s[j + 1];
    }
  }

  function Sum(xs: seq<int>): int
  {
    if xs == [] then 0 else Sum(xs[..|xs| - 1]) + xs[|xs| - 1]
  }

  /** `sum(xs) / len(xs)`, over the reals. */
  function Mean(xs: seq<int>): real
    requires |xs| > 0
  {
    Sum(xs) as real / |xs| as real
  }

  function Min(xs: seq<int>): (m: int)
    requires |xs| > 0
    ensures forall i :: 0 <= i < |xs| ==> m <= xs[i]
    ensures exists i :: 0 <= i < |xs| && xs[i] == m
  {
    if |xs| == 1 then xs[0]
    else
      var rest := Min(xs[..|xs| - 1]);
      assert forall i :: 0 <= i < |xs| - 1 ==> xs[i] == xs[..|xs| - 1][i];
      if xs[|xs| - 1] < rest then xs[|xs| - 1] else rest
  }

  function Max(xs: seq<int>): (m: int)
    requires |xs| > 0
    ensures forall i :: 0 <= i < |xs| ==> xs[i] <= m
    ensures exists i :: 0 <= i < |xs| && xs[i] == m
  {
    if |xs| == 1 then xs[0]
    else
      var rest := Max(xs[..|xs| - 1]);
      assert forall i :: 0 <= i < |xs| - 1 ==> xs[i] == xs[..|xs| - 1][i];
      if xs[|xs| - 1] > rest then xs[|xs| - 1] else rest
  }

  lemma {:induction false} SumWithin(xs: seq<int>, lo: int, hi: int)
    requires forall i :: 0 <= i < |xs| ==> lo <= xs[i] <= hi
    ensures lo * |xs| <= Sum(xs) <= hi * |xs|
  {
    if xs != [] {
      var init := xs[..|xs| - 1];
      assert forall i :: 0 <= i < |init| ==> init[i] == xs[i];
      SumWithin(init, lo, hi);
      assert lo * |xs| == lo * |init| + lo;
      assert hi * |xs| == hi * |init| + hi;
    }
  }

  /** A mean of values in [lo, hi] lies in [lo, hi]. */
  lemma MeanWithin(xs: seq<int>, lo: int, hi: int)
    requires |xs| > 0
    requires forall i :: 0 <= i < |xs| ==> lo <= xs[i] <= hi
    ensures lo as real <= Mean(xs) <= hi as real
  {
    SumWithin(xs, lo, hi);
    var n := |xs|;
    IntProductAsReal(lo, n);
    IntProductAsReal(hi, n);
    DivideBounds(lo as real, Sum(xs) as real, hi as real, n as real);
  }

  lemma IntProductAsReal(a: int, n: int)
    ensures (a * n) as real == a as real * n as real
  {
  }

  lemma DivideBounds(lo: real, s: real, hi: real, n: real)
    requires n > 0.0
    requires lo * n <= s <= hi * n
    ensures lo <= s / n <= hi
  {
    var q := s / n;
    assert q * n == s;
    NonNegativeFactor(q - lo, n);
    NonNegativeFactor(hi - q, n);
  }

  lemma NonNegativeFactor(x: real, n: real)
    requires n > 0.0 && x * n >= 0.0
    ensures x >= 0.0
  {
  }

  /** The mean lies between the smallest and the largest observation. */
  lemma MeanBetweenMinAndMax(xs: seq<int>)
    requires |xs| > 0
    ensures Min(xs) as real <= Mean(xs) <= Max(xs) as real
  {
    MeanWithin(xs, Min(xs), Max(xs));
  }

  // ---------------------------------------------------------------------
  // Numeric conversions of Python built-ins
  // ---------------------------------------------------------------------

  /** `max(lo, min(hi, x))`. */
  function Clamp(lo: real, hi: real, x: real): (r: real)
    requires lo <= hi
    ensures lo <= r <= hi
    ensures lo <= x <= hi ==> r == x
    ensures x < lo ==> r == lo
    ensures x > hi ==> r == hi
  {
    var m := if hi <= x then hi else x;
    if m <= lo then lo else m
  }

  function ClampInt(lo: int, hi: int, x: int): (r: int)
    requires lo <= hi
    ensures lo <= r <= hi
    ensures lo <= x <= hi ==> r == x
    ensures x < lo ==> r == lo
    ensures x > hi ==> r == hi
  {
    var m := if hi <= x then hi else x;
    if m <= lo then lo else m
  }

  /** `int(round(x))`: nearest integer, ties to the even neighbour. */
  function RoundHalfEven(x: real): (r: int)
    ensures -0.5 <= x - r as real <= 0.5
    ensures x - r as real == 0.5 || r as real - x == 0.5 ==> r % 2 == 0
  {
    var f := x.Floor;
    var d := x - f as real;
    if d < 0.5 then f
    else if d > 0.5 then f + 1
    else if f % 2 == 0 then f
    else f + 1
  }

  /** `date.weekday()` of a day ordinal: Monday is 0. */
  function Weekday(d: Date): (w: int)
    ensures 0 <= w <= 6
  {
    (d + 6) % 7
  }

  /** Consecutive days have consecutive weekdays, and day ordinal 1
      (0001-01-01) is a Monday. */
  lemma WeekdayStep(d: Date)
    ensures Weekday(d + 1) == (Weekday(d) + 1) % 7
    ensures Weekday(d + 7) == Weekday(d)
    ensures Weekday(1) == 0
  {
  }
}

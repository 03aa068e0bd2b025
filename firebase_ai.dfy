/** backend/app/services/firebase_ai_service.py: a second language-model
    predictor, with its own prompt, its own reply cleaning and an
    average-based fallback that, unlike the backend engine, neither sorts
    the history nor keeps gaps outside 21..35 days. */
module FirebaseAi {
  import opened Common
  import opened Text

  const DefaultModelName := "gemini-2.5-flash"
  const InvalidReply := "Invalid response format from Gemini AI"
  const NoHistoryNote := "No cycle history available"
  const AverageNote := "Prediction based on average cycle length"

  // ---------------------------------------------------------------------
  // _initialize_gemini
  // ---------------------------------------------------------------------

  /** `settings.GEMINI_MODEL_NAME or 'gemini-2.5-flash'`. */
  function ModelName(configured: string): (name: string)
    ensures configured != "" ==> name == configured
    ensures configured == "" ==> name == DefaultModelName
  {
    if configured == "" then DefaultModelName else configured
  }

  /** The model the service ends up with: none without an API key,
      otherwise the configured name (or the default when none is
      configured), then the default name when that fails. `creates` says
      whether constructing a model of that name succeeds. */
  function ChooseModel(apiKeySet: bool, configured: string, creates: string -> bool): (m: Option<string>)
    ensures !apiKeySet ==> m == None
    ensures apiKeySet && creates(ModelName(configured)) ==> m == Some(ModelName(configured))
    ensures apiKeySet && !creates(ModelName(configured)) && creates(DefaultModelName) ==> m == Some(DefaultModelName)
    ensures m.Some? ==> apiKeySet && creates(m.value)
    ensures m.None? <==> !apiKeySet || (!creates(ModelName(configured)) && !creates(DefaultModelName))
  {
    if !apiKeySet then None
    else
      var name := ModelName(configured);
      if creates(name) then Some(name)
      else if creates(DefaultModelName) then Some(DefaultModelName)
      else None
  }

  // ---------------------------------------------------------------------
  // _calculate_average_cycle_length
  // ---------------------------------------------------------------------

  predicate Plausible(length: int)
  {
    21 <= length <= 35
  }

  /** The gaps kept by the 21..35-day filter, in order. */
  function InRangeGaps(g: seq<int>): (r: seq<int>)
    ensures |r| <= |g|
    ensures forall i :: 0 <= i < |r| ==> Plausible(r[i])
  {
    if g == [] then []
    else if Plausible(g[|g| - 1]) then InRangeGaps(g[..|g| - 1]) + [g[|g| - 1]]
    else InRangeGaps(g[..|g| - 1])
  }

  /** The filter keeps exactly the plausible gaps, each as often as it
      occurs. */
  lemma {:induction false} InRangeGapsCounts(g: seq<int>, x: int)
    ensures multiset(InRangeGaps(g))[x] == if Plausible(x) then multiset(g)[x] else 0
  {
    if g != [] {
      InRangeGapsCounts(g[..|g| - 1], x);
      assert g == g[..|g| - 1] + [g[|g| - 1]];
    }
  }

  /** One more gap is kept exactly when it is plausible. */
  lemma InRangeGapsStep(g: seq<int>, i: nat)
    requires i < |g|
    ensures InRangeGaps(g[..i + 1]) == if Plausible(g[i]) then InRangeGaps(g[..i]) + [g[i]] else InRangeGaps(g[..i])
  {
    assert g[..i + 1][..i] == g[..i] && g[..i + 1][i] == g[i];
  }

  /** Average of the plausible gaps between consecutive records in the order
      given, or 28 when there are none. */
  function AverageCycleLength(cycles: seq<Cycle>): (r: real)
    ensures 21.0 <= r <= 35.0
    ensures |cycles| < 2 || InRangeGaps(Gaps(cycles)) == [] ==> r == 28.0
  {
    if |cycles| < 2 then 28.0
    else
      var lengths := InRangeGaps(Gaps(cycles));
      if lengths == [] then 28.0
      else
        MeanWithin(lengths, 21, 35);
        Mean(lengths)
  }

  /** The history is not sorted first: the same two records give 30 days in
      date order and the default 28 the other way round. */
  lemma AverageDependsOnOrder(a: Cycle, b: Cycle)
    requires b.start == a.start + 30
    ensures AverageCycleLength([a, b]) == 30.0
    ensures AverageCycleLength([b, a]) == 28.0
  {
    InOrderAverage(a, b);
    ReversedAverage(a, b);
  }

  lemma InOrderAverage(a: Cycle, b: Cycle)
    requires b.start == a.start + 30
    ensures AverageCycleLength([a, b]) == 30.0
  {
    assert Gaps([a, b]) == [30] by {
      assert |Gaps([a, b])| == 1 && Gaps([a, b])[0] == b.start - a.start;
    }
    assert [30][..0] == [];
    assert InRangeGaps([30]) == [30];
    assert Sum([30]) == 30;
    assert AverageCycleLength([a, b]) == Mean([30]);
  }

  lemma ReversedAverage(a: Cycle, b: Cycle)
    requires b.start == a.start + 30
    ensures AverageCycleLength([b, a]) == 28.0
  {
    assert Gaps([b, a]) == [-30] by {
      assert |Gaps([b, a])| == 1 && Gaps([b, a])[0] == a.start - b.start;
    }
    assert [-30][..0] == [];
    assert InRangeGaps([-30]) == [];
  }

  method CalculateAverageCycleLength(cycles: seq<Cycle>) returns (avg: real)
    ensures avg == AverageCycleLength(cycles)
    ensures |cycles| < 2 ==> avg == 28.0
    ensures 21.0 <= avg <= 35.0
  {
    if |cycles| < 2 {
      return 28.0;
    }
    ghost var g := Gaps(cycles);
    var lengths: seq<int> := [];
    for i := 1 to |cycles|
      invariant lengths == InRangeGaps(g[..i - 1])
    {
      var length := cycles[i].start - cycles[i - 1].start;
      InRangeGapsStep(g, i - 1);
      if 21 <= length <= 35 {
        lengths := lengths + [length];
      }
    }
    assert g[..|cycles| - 1] == g;
    avg := if lengths != [] then Mean(lengths) else 28.0;
  }

  // ---------------------------------------------------------------------
  // _get_fallback_prediction
  // ---------------------------------------------------------------------

  /** The fallback prediction dictionary; the empty history has no dates. */
  datatype FallbackPrediction = FallbackPrediction(
    nextPeriodDate: Option<Date>,
    fertileWindow: Option<Window>,
    confidence: Confidence,
    notes: string,
    averageCycleLength: Option<real>)

  /** `_get_fallback_prediction`: no dates for an empty history; otherwise
      a next period 21 to 35 days after the last record as given (the
      history is not sorted), the luteal window before it and medium
      confidence. */
  function FallbackFor(cycles: seq<Cycle>): (f: FallbackPrediction)
    ensures f.nextPeriodDate.None? <==> cycles == []
    ensures cycles == [] ==>
      f.fertileWindow == None && f.averageCycleLength == None && f.confidence == Low && f.notes == NoHistoryNote
    ensures cycles != [] ==>
      var last := cycles[|cycles| - 1].start;
      && f.averageCycleLength == Some(AverageCycleLength(cycles))
      && f.nextPeriodDate == Some(last + AverageCycleLength(cycles).Floor)
      && 21 <= f.nextPeriodDate.value - last <= 35
      && f.fertileWindow == Some(LutealWindow(f.nextPeriodDate.value))
      && f.confidence == Medium && f.notes == AverageNote
  {
    if cycles == [] then FallbackPrediction(None, None, Low, NoHistoryNote, None)
    else
      var avg := AverageCycleLength(cycles);
      var next := cycles[|cycles| - 1].start + avg.Floor;
      FallbackPrediction(Some(next), Some(LutealWindow(next)), Medium, AverageNote, Some(avg))
  }

  method GetFallbackPrediction(cycles: seq<Cycle>) returns (f: FallbackPrediction)
    ensures f == FallbackFor(cycles)
    ensures f.nextPeriodDate.None? <==> cycles == []
    ensures f.confidence == (if cycles == [] then Low else Medium)
  {
    if cycles == [] {
      return FallbackPrediction(None, None, Low, NoHistoryNote, None);
    }
    var lastCycle := cycles[|cycles| - 1];
    var avgCycleLength := CalculateAverageCycleLength(cycles);
    var nextPeriod := lastCycle.start + avgCycleLength.Floor;
    var ovulationDay := nextPeriod - 14;
    var fertileStart := ovulationDay - 5;
    var fertileEnd := ovulationDay + 1;
    f := FallbackPrediction(
      Some(nextPeriod), Some(Window(fertileStart, fertileEnd, ovulationDay)),
      Medium, AverageNote, Some(avgCycleLength));
  }

  // ---------------------------------------------------------------------
  // _parse_gemini_response
  // ---------------------------------------------------------------------

  /** The reply text after `strip()`, removal of a leading "```json" and
      then, independently, of a trailing "```", each followed by `strip()`. */
  function CleanResponse(responseText: string): (r: string)
    ensures |r| <= |responseText|
    ensures Stripped(r)
    ensures !StartsWith(Trim(responseText), "```json") && !EndsWith(Trim(responseText), "```") ==>
      r == Trim(responseText)
  {
    CleanStripped(Trim(responseText))
  }

  /** The fence removal applied to the stripped reply: a leading "```json"
      and, independently, a trailing "```", each followed by `strip()`. */
  function CleanStripped(t: string): (r: string)
    ensures |r| <= |t|
    ensures Stripped(t) ==> Stripped(r)
    ensures !StartsWith(t, "```json") && !EndsWith(t, "```") ==> r == t
  {
    var u := if StartsWith(t, "```json") then Trim(t[7..]) else t;
    if EndsWith(u, "```") then Trim(u[..|u| - 3]) else u
  }

  method ParseGeminiResponse(responseText: string, parseJson: string -> Option<Json>) returns (r: Result<Json>)
    ensures parseJson(CleanResponse(responseText)).Some? ==>
      r == Ok(parseJson(CleanResponse(responseText)).value)
    ensures parseJson(CleanResponse(responseText)).None? ==> r == Err(InvalidReply)
  {
    var text := Trim(responseText);
    if StartsWith(text, "```json") {
      text := Trim(text[7..]);
    }
    if EndsWith(text, "```") {
      text := Trim(text[..|text| - 3]);
    }
    var parsed := parseJson(text);
    if parsed.None? {
      return Err(InvalidReply);
    }
    r := Ok(parsed.value);
  }

  /** A body in a ```json fence, with any surrounding whitespace, comes back
      unchanged. */
  lemma JsonFenceRoundTrip(pre: string, body: string, post: string)
    requires AllSpace(pre) && AllSpace(post) && Stripped(body)
    ensures CleanResponse(pre + "```json" + body + "```" + post) == body
  {
    var fenced := "```json" + body + "```";
    assert pre + "```json" + body + "```" + post == pre + fenced + post;
    assert fenced[0] == '`' && fenced[|fenced| - 1] == '`';
    TrimPadded(pre, fenced, post);
    JsonUnfence(body);
  }

  lemma JsonUnfence(body: string)
    requires Stripped(body)
    ensures CleanStripped("```json" + body + "```") == body
  {
    var fenced := "```json" + body + "```";
    assert fenced[..7] == "```json";
    var rest := fenced[7..];
    assert rest == body + "```";
    CleanAfterOpening(rest, body);
  }

  lemma CleanAfterOpening(rest: string, body: string)
    requires Stripped(body) && rest == body + "```"
    ensures Trim(rest) == rest && EndsWith(rest, "```") && Trim(rest[..|rest| - 3]) == body
  {
    assert rest[|rest| - 1] == '`';
    assert rest[0] == if body == [] then '`' else body[0];
    TrimNoSpace(rest);
    assert rest[|rest| - 3..] == "```";
    assert rest[..|rest| - 3] == body;
    TrimNoSpace(body);
  }

  /** Unlike the other Gemini client, a missing closing fence costs nothing. */
  lemma UnclosedFenceKept(body: string)
    requires Stripped(body) && !EndsWith(body, "```")
    ensures CleanResponse("```json" + body) == body
  {
    var fenced := "```json" + body;
    assert fenced[0] == '`' && fenced[|fenced| - 1] == (if body == [] then 'n' else body[|body| - 1]);
    TrimNoSpace(fenced);
    assert fenced[..7] == "```json";
    assert fenced[7..] == body;
    TrimNoSpace(body);
  }

  /** A bare ``` opening fence is not removed: only the closing one is, so
      the text handed to the JSON parser still begins with three
      backticks. */
  lemma PlainFenceKeepsOpening(body: string)
    requires Stripped(body) && |body| >= 4 && body[..4] != "json"
    ensures CleanResponse("```" + body + "```") == "```" + body
  {
    var fenced := "```" + body + "```";
    TrimNoSpace(fenced);
    assert fenced[3..7] == body[..4];
    assert !StartsWith(fenced, "```json");
    assert fenced[..|fenced| - 3] == "```" + body;
    TrimNoSpace("```" + body);
  }

  // ---------------------------------------------------------------------
  // _format_cycle_prompt
  // ---------------------------------------------------------------------

  /** `cycle.get('period_length', '?')`. */
  function PeriodText(c: Cycle): (t: string)
    ensures t == "?" <==> c.periodLength.None?
  {
    match c.periodLength
    case Some(p) => IntToString(p)
    case None => "?"
  }

  /** A recorded period length survives into the prompt and can be read
      back. */
  lemma PeriodTextRoundTrip(c: Cycle)
    requires c.periodLength.Some? && c.periodLength.value >= 0
    ensures ParseDigits(PeriodText(c)) == c.periodLength.value
  {
    NatToStringRoundTrip(c.periodLength.value);
  }

  /** The part of a prompt line before the period length. */
  function PromptHead(n: nat, c: Cycle, iso: Date -> string): string
  {
    "Cycle " + NatToString(n) + ": Started " + iso(c.start)
  }

  function PromptLine(n: nat, c: Cycle, iso: Date -> string): string
  {
    PromptHead(n, c, iso) + ", Length: " + PeriodText(c) + " days, Symptoms: " + Join(", ", c.symptoms)
  }

  /** The history block of the prompt: the last five records, numbered from
      1, one line each. */
  function FormatCycleHistory(cycles: seq<Cycle>, iso: Date -> string): (r: string)
    ensures cycles == [] ==> r == ""
    ensures |cycles| == 1 ==> r == PromptLine(1, cycles[0], iso)
  {
    var recent := LastN(cycles, 5);
    Join("\n", seq(|recent|, i requires 0 <= i < |recent| => PromptLine(i + 1, recent[i], iso)))
  }

  /** The block has min(N, 5) lines for N records: line i is numbered i + 1
      and shows record N - min(N, 5) + i. */
  lemma FormatCycleHistoryLines(cycles: seq<Cycle>, iso: Date -> string)
    ensures var k := if |cycles| < 5 then |cycles| else 5;
      FormatCycleHistory(cycles, iso)
        == Join("\n", seq(k, i requires 0 <= i < k => PromptLine(i + 1, cycles[|cycles| - k + i], iso)))
  {
    var k := if |cycles| < 5 then |cycles| else 5;
    var recent := LastN(cycles, 5);
    assert seq(|recent|, i requires 0 <= i < |recent| => PromptLine(i + 1, recent[i], iso))
        == seq(k, i requires 0 <= i < k => PromptLine(i + 1, cycles[|cycles| - k + i], iso));
  }

  /** Records older than the last five do not reach the prompt. */
  lemma FormatCycleHistoryDropsOlder(older: seq<Cycle>, recent: seq<Cycle>, iso: Date -> string)
    requires |recent| == 5
    ensures FormatCycleHistory(older + recent, iso) == FormatCycleHistory(recent, iso)
  {
    assert LastN(older + recent, 5) == recent;
    assert LastN(recent, 5) == recent;
  }

  /** Each line starts with its number and start date, followed by the
      period length. */
  lemma PromptLineShape(n: nat, c: Cycle, iso: Date -> string)
    ensures StartsWith(PromptLine(n, c, iso), PromptHead(n, c, iso) + ", Length: " + PeriodText(c))
  {
    var head := PromptHead(n, c, iso) + ", Length: " + PeriodText(c);
    StartsWithSelf(head);
    StartsWithExtend(head, head, " days, Symptoms: ");
    StartsWithExtend(head + " days, Symptoms: ", head, Join(", ", c.symptoms));
  }

  // ---------------------------------------------------------------------
  // predict_next_cycle
  // ---------------------------------------------------------------------

  /** The returned dictionary: the parsed reply with the confidence copied
      into its metadata, or the fallback prediction. */
  datatype AiOutcome = AiSuccess(prediction: map<string, Json>, confidence: Json) | AiFallback(fallback: FallbackPrediction)

  /** `predict_next_cycle`. `modelAvailable` says whether a model was
      chosen; `generate` is the network call, given the history block of
      the prompt and returning the reply text or an error; `parseJson` is
      `json.loads`. Any failure on the model path lands on the fallback. */
  method PredictNextCycle(
    cycles: seq<Cycle>, modelAvailable: bool, generate: string -> Result<string>,
    parseJson: string -> Option<Json>, iso: Date -> string)
    returns (r: AiOutcome)
    ensures r.AiFallback? ==> r.fallback == FallbackFor(cycles)
    ensures r.AiSuccess? <==>
      && cycles != [] && modelAvailable
      && var reply := generate(FormatCycleHistory(cycles, iso));
      && reply.Ok?
      && parseJson(CleanResponse(reply.value)).Some?
      && parseJson(CleanResponse(reply.value)).value.JObject?
    ensures r.AiSuccess? ==>
      && var reply := generate(FormatCycleHistory(cycles, iso));
      && r.prediction == parseJson(CleanResponse(reply.value)).value.fields
      && r.confidence == ConfidenceOf(r.prediction)
  {
    if cycles == [] || !modelAvailable {
      var f := GetFallbackPrediction(cycles);
      return AiFallback(f);
    }
    var prompt := FormatCycleHistory(cycles, iso);
    var reply := generate(prompt);
    if reply.Err? {
      var f := GetFallbackPrediction(cycles);
      return AiFallback(f);
    }
    var prediction := ParseGeminiResponse(reply.value, parseJson);
    if prediction.Err? || !prediction.value.JObject? {
      var f := GetFallbackPrediction(cycles);
      return AiFallback(f);
    }
    r := AiSuccess(prediction.value.fields, ConfidenceOf(prediction.value.fields));
  }
}

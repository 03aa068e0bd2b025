/** backend/app/services/gemini_service.py: the language-model predictor that
    the backend engine tries first. The network call and JSON parsing are
    passed in; what is modelled is the prompt history, the removal of
    markdown fences, the mapping of the reply to a result and the promise
    that a status dictionary always comes back. */
module GeminiService {
  import opened Common
  import opened Text

  /** `prediction` of a successful reply; the four dates are copied from the
      JSON reply unvalidated. */
  datatype GeminiPrediction = GeminiPrediction(
    nextPeriodDate: Json,
    fertileWindowStart: Json,
    fertileWindowEnd: Json,
    ovulationDay: Json,
    confidence: Json,
    modelUsed: string,
    lastCycleDate: Option<Date>)

  /** The status dictionary: `status == 'success'` with a prediction, or
      `status == 'error'` with a message and `model_used`. */
  datatype GeminiStatus = GSuccess(prediction: GeminiPrediction) | GError(message: string, modelUsed: string)

  const NoHistory := "No cycle history available."
  const NotAvailable := "Gemini AI service not available"
  const InvalidFormat := "Invalid response format from Gemini: "
  /** Stands for the text of the `TypeError` raised when the reply is not a
      JSON object. */
  const NotAnObject := "TypeError: reply is not a JSON object"

  const RequiredKeys: seq<string> := ["next_period_date", "fertile_window_start", "fertile_window_end", "ovulation_day"]

  // ---------------------------------------------------------------------
  // format_cycle_data
  // ---------------------------------------------------------------------

  /** `end_date and end_date != 'N/A'`, where an absent key reads as 'N/A'. */
  predicate EndShown(e: Option<EndValue>)
  {
    match e
    case None => false
    case Some(EndOn(_)) => true
    case Some(EndText(t)) => t != "" && t != "N/A"
    case Some(EndNull) => false
  }

  function EndSegment(e: Option<EndValue>, iso: Date -> string): (r: string)
    ensures r != "" <==> EndShown(e)
    ensures EndShown(e) ==> StartsWith(r, ", Ended ")
  {
    match e
    case Some(EndOn(d)) => ", Ended " + iso(d)
    case Some(EndText(t)) => if t != "" && t != "N/A" then ", Ended " + t else ""
    case _ => ""
  }

  function PeriodSegment(c: Cycle): (r: string)
    ensures r != "" <==> c.periodLength.Some?
    ensures c.periodLength.Some? ==> r == ", Period length: " + IntToString(c.periodLength.value) + " days"
  {
    match c.periodLength
    case Some(p) => ", Period length: " + IntToString(p) + " days"
    case None => ""
  }

  function SymptomSegment(c: Cycle): (r: string)
    ensures r != "" <==> |c.symptoms| > 0
    ensures |c.symptoms| > 0 ==> StartsWith(r, ", Symptoms: ")
  {
    if |c.symptoms| > 0 then ", Symptoms: " + Join(", ", c.symptoms) else ""
  }

  /** The part of a line before the optional segments. */
  function CycleHead(n: nat, c: Cycle, iso: Date -> string): string
  {
    "Cycle " + NatToString(n) + ": Started " + iso(c.start)
  }

  /** The line for the `n`-th listed cycle: it names its position and the
      start date, and is nothing more when the record has no end date,
      period length or symptoms. */
  function CycleInfo(n: nat, c: Cycle, iso: Date -> string): (r: string)
    ensures StartsWith(r, CycleHead(n, c, iso))
    ensures c.endDate == None && c.periodLength == None && c.symptoms == [] ==> r == CycleHead(n, c, iso)
  {
    var head := CycleHead(n, c, iso);
    var e, p, y := EndSegment(c.endDate, iso), PeriodSegment(c), SymptomSegment(c);
    StartsWithSelf(head);
    StartsWithExtend(head, head, e);
    StartsWithExtend(head + e, head, p);
    StartsWithExtend(head + e + p, head, y);
    assert c.endDate == None && c.periodLength == None && c.symptoms == [] ==> head + e + p + y == head by {
      if c.endDate == None && c.periodLength == None && c.symptoms == [] {
        assert e == [] && p == [] && y == [];
      }
    }
    head + e + p + y
  }

  /** One line per listed record, numbered from 1. */
  function FormattedLines(recent: seq<Cycle>, iso: Date -> string): (lines: seq<string>)
    ensures |lines| == |recent|
  {
    if recent == [] then []
    else FormattedLines(recent[..|recent| - 1], iso) + [CycleInfo(|recent|, recent[|recent| - 1], iso)]
  }

  /** Line i describes record i under the number i + 1. */
  lemma {:induction false} FormattedLinesAt(recent: seq<Cycle>, iso: Date -> string, i: nat)
    requires i < |recent|
    ensures FormattedLines(recent, iso)[i] == CycleInfo(i + 1, recent[i], iso)
  {
    if i < |recent| - 1 {
      var init := recent[..|recent| - 1];
      FormattedLinesAt(init, iso, i);
      assert init[i] == recent[i];
    }
  }

  /** The body of the loop in `format_cycle_data`: the line grows by one
      segment for each field that is present. */
  method FormatCycle(n: nat, cycle: Cycle, iso: Date -> string) returns (cycleInfo: string)
    ensures cycleInfo == CycleInfo(n, cycle, iso)
  {
    cycleInfo := "Cycle " + NatToString(n) + ": Started " + iso(cycle.start);
    ghost var head := cycleInfo;
    if EndShown(cycle.endDate) {
      cycleInfo := cycleInfo + EndSegment(cycle.endDate, iso);
    }
    assert cycleInfo == head + EndSegment(cycle.endDate, iso);
    if cycle.periodLength.Some? {
      cycleInfo := cycleInfo + (", Period length: " + IntToString(cycle.periodLength.value) + " days");
    }
    assert cycleInfo == head + EndSegment(cycle.endDate, iso) + PeriodSegment(cycle);
    if |cycle.symptoms| > 0 {
      cycleInfo := cycleInfo + (", Symptoms: " + Join(", ", cycle.symptoms));
    }
  }

  /** `format_cycle_data`: the five most recent records, one line each. */
  method FormatCycleData(cycles: seq<Cycle>, iso: Date -> string) returns (text: string)
    ensures cycles == [] ==> text == NoHistory
    ensures cycles != [] ==> text == Join("\n", FormattedLines(LastN(cycles, 5), iso))
  {
    if cycles == [] {
      return NoHistory;
    }
    var recent := LastN(cycles, 5);
    var formatted: seq<string> := [];
    for i := 0 to |recent|
      invariant formatted == FormattedLines(recent[..i], iso)
    {
      var cycleInfo := FormatCycle(i + 1, recent[i], iso);
      FormattedLinesSnoc(recent, iso, i);
      formatted := formatted + [cycleInfo];
    }
    assert recent[..|recent|] == recent;
    text := Join("\n", formatted);
  }

  /** One more listed record adds its line. */
  lemma FormattedLinesSnoc(recent: seq<Cycle>, iso: Date -> string, i: nat)
    requires i < |recent|
    ensures FormattedLines(recent[..i + 1], iso) == FormattedLines(recent[..i], iso) + [CycleInfo(i + 1, recent[i], iso)]
  {
    assert recent[..i + 1][..i] == recent[..i];
  }

  /** The history lists the last five records (fewer when there are fewer),
      the most recent last, each line starting with its number and date. */
  lemma FormattedLinesShape(cycles: seq<Cycle>, iso: Date -> string, i: nat)
    requires i < |FormattedLines(LastN(cycles, 5), iso)|
    ensures |FormattedLines(LastN(cycles, 5), iso)| == if |cycles| < 5 then |cycles| else 5
    ensures var n := |FormattedLines(LastN(cycles, 5), iso)|;
      StartsWith(FormattedLines(LastN(cycles, 5), iso)[i], CycleHead(i + 1, cycles[|cycles| - n + i], iso))
  {
    var recent := LastN(cycles, 5);
    FormattedLinesAt(recent, iso, i);
    assert recent[i] == cycles[|cycles| - |recent| + i];
  }

  // ---------------------------------------------------------------------
  // Fence stripping in predict_next_cycle
  // ---------------------------------------------------------------------

  /** A stripped reply with a leading "```json" or "```" removed together
      with its last three characters, and stripped again. */
  function Unfence(t: string): (r: string)
    ensures |r| <= |t|
    ensures !StartsWith(t, "```") ==> r == t
    ensures StartsWith(t, "```") ==> Stripped(r)
  {
    assert |t| >= 7 ==> t[..3] == t[..7][..3];
    if StartsWith(t, "```json") then Trim(PySlice(t, 7, -3))
    else if StartsWith(t, "```") then Trim(PySlice(t, 3, -3))
    else t
  }

  /** The reply text after `strip()` and fence removal: stripped, never
      longer than the reply, and only stripped when there is no leading
      fence. */
  function StripFences(responseText: string): (r: string)
    ensures |r| <= |responseText|
    ensures Stripped(r)
    ensures !StartsWith(Trim(responseText), "```") ==> r == Trim(responseText)
  {
    Unfence(Trim(responseText))
  }

  method ExtractJsonText(responseText: string) returns (text: string)
    ensures text == StripFences(responseText)
    ensures Trim(text) == text
  {
    text := Trim(responseText);
    if StartsWith(text, "```json") {
      text := Trim(PySlice(text, 7, -3));
    } else if StartsWith(text, "```") {
      text := Trim(PySlice(text, 3, -3));
    }
    TrimIdempotent(responseText);
    TrimIdempotent(PySlice(Trim(responseText), 7, -3));
    TrimIdempotent(PySlice(Trim(responseText), 3, -3));
  }

  /** A body wrapped in a ```json fence, with any surrounding whitespace,
      comes back unchanged. */
  lemma JsonFenceRoundTrip(pre: string, body: string, post: string)
    requires AllSpace(pre) && AllSpace(post) && Stripped(body)
    ensures StripFences(pre + "```json" + body + "```" + post) == body
  {
    var fenced := "```json" + body + "```";
    assert pre + "```json" + body + "```" + post == pre + fenced + post;
    TrimPadded(pre, fenced, post);
    JsonUnfence(body);
  }

  lemma JsonUnfence(body: string)
    requires Stripped(body)
    ensures Unfence("```json" + body + "```") == body
  {
    var fenced := "```json" + body + "```";
    assert fenced[..7] == "```json";
    assert PySlice(fenced, 7, -3) == body;
    TrimNoSpace(body);
  }

  /** The same for a bare ``` fence around a body that does not itself begin
      with "json". */
  lemma PlainFenceRoundTrip(pre: string, body: string, post: string)
    requires AllSpace(pre) && AllSpace(post) && Stripped(body)
    requires !StartsWith(body, "json")
    ensures StripFences(pre + "```" + body + "```" + post) == body
  {
    var fenced := "```" + body + "```";
    assert pre + "```" + body + "```" + post == pre + fenced + post;
    TrimPadded(pre, fenced, post);
    PlainUnfence(body);
  }

  lemma PlainUnfence(body: string)
    requires Stripped(body) && !StartsWith(body, "json")
    ensures Unfence("```" + body + "```") == body
  {
    var fenced := "```" + body + "```";
    assert fenced[..3] == "```";
    if |body| >= 4 {
      assert fenced[3..7] == body[..4];
    } else {
      assert fenced[3 + |body|] == '`';
    }
    assert !StartsWith(fenced, "```json");
    assert PySlice(fenced, 3, -3) == body;
    TrimNoSpace(body);
  }

  /** A reply without a leading fence is only stripped of whitespace. */
  lemma UnfencedKept(pre: string, body: string, post: string)
    requires AllSpace(pre) && AllSpace(post) && Stripped(body)
    requires !StartsWith(body, "```")
    ensures StripFences(pre + body + post) == body
  {
    TrimPadded(pre, body, post);
  }

  /** An opening ```json fence without a closing one still loses the last
      three characters of the body. */
  lemma UnclosedFenceLosesTail(body: string)
    requires Stripped(body) && |body| >= 3 && Stripped(body[..|body| - 3])
    ensures StripFences("```json" + body) == body[..|body| - 3]
  {
    var fenced := "```json" + body;
    assert fenced[0] == '`' && fenced[|fenced| - 1] == body[|body| - 1];
    TrimNoSpace(fenced);
    assert fenced[..7] == "```json";
    assert PySlice(fenced, 7, -3) == body[..|body| - 3];
    TrimNoSpace(body[..|body| - 3]);
  }

  // ---------------------------------------------------------------------
  // predict_next_cycle
  // ---------------------------------------------------------------------

  predicate HasRequiredKeys(fields: map<string, Json>)
  {
    forall k :: k in RequiredKeys ==> k in fields
  }

  /** What a parsed reply maps to: a success carrying the four dates, or the
      error raised for a missing key or a reply that is not an object. */
  function MapReply(replyText: string, parsed: Option<Json>, cycles: seq<Cycle>): (r: GeminiStatus)
    ensures r.GSuccess? <==> parsed.Some? && parsed.value.JObject? && HasRequiredKeys(parsed.value.fields)
    ensures r.GSuccess? ==>
      && r.prediction.modelUsed == "gemini_ai"
      && r.prediction.nextPeriodDate == parsed.value.fields["next_period_date"]
      && r.prediction.fertileWindowStart == parsed.value.fields["fertile_window_start"]
      && r.prediction.fertileWindowEnd == parsed.value.fields["fertile_window_end"]
      && r.prediction.ovulationDay == parsed.value.fields["ovulation_day"]
      && r.prediction.confidence == ConfidenceOf(parsed.value.fields)
      && (r.prediction.confidence == JString("medium") <==>
          ("confidence" !in parsed.value.fields || parsed.value.fields["confidence"] == JString("medium")))
      && r.prediction.lastCycleDate == (if cycles != [] then Some(cycles[|cycles| - 1].start) else None)
    ensures r.GError? ==> r.modelUsed == "gemini_ai"
    ensures parsed.Some? && !parsed.value.JObject? ==> r == GError(NotAnObject, "gemini_ai")
    ensures (parsed.None? || (parsed.value.JObject? && !HasRequiredKeys(parsed.value.fields)))
            ==> r == GError(InvalidFormat + replyText, "gemini_ai")
  {
    match parsed
    case None => GError(InvalidFormat + replyText, "gemini_ai")
    case Some(JObject(f)) =>
      if HasRequiredKeys(f) then
        GSuccess(GeminiPrediction(
          f["next_period_date"], f["fertile_window_start"], f["fertile_window_end"], f["ovulation_day"],
          ConfidenceOf(f), "gemini_ai",
          if cycles != [] then Some(cycles[|cycles| - 1].start) else None))
      else GError(InvalidFormat + replyText, "gemini_ai")
    case Some(_) => GError(NotAnObject, "gemini_ai")
  }

  /** `predict_next_cycle`. `modelAvailable` says whether the client was
      initialised; `reply` is the outcome of the network call (its text, or
      the message of what it raised); `parseJson` is `json.loads`. */
  method PredictNextCycle(
    cycles: seq<Cycle>, modelAvailable: bool, reply: Result<string>,
    parseJson: string -> Option<Json>, iso: Date -> string)
    returns (r: GeminiStatus)
    ensures !modelAvailable ==> r == GError(NotAvailable, "none")
    ensures modelAvailable && reply.Err? ==> r == GError(reply.message, "gemini_ai")
    ensures modelAvailable && reply.Ok? ==>
      r == MapReply(reply.value, parseJson(StripFences(reply.value)), cycles)
    ensures r.GError? ==> r.modelUsed == (if modelAvailable then "gemini_ai" else "none")
    ensures r.GSuccess? ==> modelAvailable && reply.Ok? && r.prediction.modelUsed == "gemini_ai"
  {
    if !modelAvailable {
      return GError(NotAvailable, "none");
    }
    // The prompt is built from the history; sending it is the network call.
    var history := FormatCycleData(cycles, iso);
    if reply.Err? {
      return GError(reply.message, "gemini_ai");
    }
    var responseText := ExtractJsonText(reply.value);
    r := MapReply(reply.value, parseJson(responseText), cycles);
  }
}

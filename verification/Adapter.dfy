/**
 Running the agent, and how little of what it says is believed (flow_runner/adapter.py).
 */
module Adapter {
  import opened Options
  import opened Collections
  import opened Jsons
  import opened RecordLayer
  import opened Dispatching

  /** A line of pi's stdout: anything `parse_events` skips; a JSON object; or a line on which reading or
      rendering raises something other than a `JSONDecodeError`, as `json.loads` does on an integer of too
      many digits (a plain `ValueError`) and on deep nesting (`RecursionError`). */
  datatype Line = Noise | Event(fields: map<string, Json>) | Refused

  datatype Summary = Summary(toolCalls: nat, lastText: string, toolErrors: seq<Json>, modelErrors: seq<Json>)

  const EMPTY := Summary(0, "", [], [])

  // ----- parse_events ----------------------------------------------------------------------------

  /** `part.get("text", "")` for the text parts of a message, joined; None when a part is not text and
      the join raises. */
  function JoinTexts(parts: seq<Json>): Option<string> {
    if parts == [] then Some("")
    else
      var part, rest := parts[0], JoinTexts(parts[1..]);
      if !part.Obj? || Get(part.fields, "type") != Str("text") then rest
      else if "text" !in part.fields then rest
      else if !part.fields["text"].Str? || rest.None? then None
      else Some(part.fields["text"].s + rest.value)
  }

  function TextOf(message: map<string, Json>): Option<string> {
    match Get(message, "content")
    case Str(s) => Some(s)
    case Arr(items) => JoinTexts(items)
    case _ => Some("")
  }

  predicate IsAssistantEnd(fields: map<string, Json>) {
    && Get(fields, "type") in [Str("message_end"), Str("turn_end")]
    && Get(fields, "message").Obj?
    && Get(Get(fields, "message").fields, "role") == Str("assistant")
  }

  /** The failure an assistant message reports; Null when it reports none. */
  function FailureOf(message: map<string, Json>): Json {
    if Get(message, "errorMessage").Truthy() then Get(message, "errorMessage")
    else if Get(message, "stopReason") == Str("error") then Str("model turn failed")
    else Null
  }

  function Truncated(failure: Json): Json {
    if failure.Str? && |failure.s| > 400 then Str(failure.s[..400]) else failure
  }

  /** One line; None is what a refused line raises, and the TypeError of an unhashable `type` or of text
      that is not text. */
  function ParseLine(acc: Summary, line: Line): Option<Summary> {
    if line.Noise? then Some(acc)
    else if line.Refused? then None
    else
      var fields := line.fields;
      var kind := Get(fields, "type");
      if kind == Str("tool_execution_end") then
        var acc' := acc.(toolCalls := acc.toolCalls + 1);
        Some(if !Get(fields, "isError").Truthy() then acc'
             else acc'.(toolErrors := acc.toolErrors + [Get(fields, "result")]))
      else if kind.Arr? || kind.Obj? then None
      else if !IsAssistantEnd(fields) then Some(acc)
      else
        var message := fields["message"].fields;
        var failure := FailureOf(message);
        var known := failure.Str? && failure in acc.modelErrors;
        var acc' := if !failure.Truthy() || known then acc
                    else acc.(modelErrors := acc.modelErrors + [Truncated(failure)]);
        var text := TextOf(message);
        if text.None? then None
        else Some(if text.value != "" then acc'.(lastText := text.value) else acc')
  }

  function Parse(acc: Summary, lines: seq<Line>): Option<Summary>
    decreases |lines|
  {
    if lines == [] then Some(acc)
    else
      var next := ParseLine(acc, lines[0]);
      if next.None? then None else Parse(next.value, lines[1..])
  }

  /** What `_trailing_json` makes of a text: whether it claims something, or None when it raises because
      `json.loads` raises something other than a `JSONDecodeError` on the text's last line. */
  type Claims = string -> Option<bool>

  predicate Chokes(claims: Claims, text: string) {
    text != "" && claims(text).None?
  }

  /** The whole of `parse_events`: the lines, then the claim in the last text. */
  function Parsed(claims: Claims, lines: seq<Line>): Option<Summary> {
    var summary := Parse(EMPTY, lines);
    if summary.Some? && Chokes(claims, summary.value.lastText) then None else summary
  }

  method ParseEvents(claims: Claims, lines: seq<Line>) returns (summary: Option<Summary>)
    ensures summary == Parsed(claims, lines)
  {
    var acc := EMPTY;
    for k := 0 to |lines|
      invariant Parse(EMPTY, lines) == Parse(acc, lines[k..])
    {
      assert lines[k..][0] == lines[k] && lines[k..][1..] == lines[k + 1..];
      var next := ParseLine(acc, lines[k]);
      if next.None? {
        return None;
      }
      acc := next.value;
    }
    assert lines[|lines|..] == [];
    if Chokes(claims, acc.lastText) {
      return None;
    }
    summary := Some(acc);
  }

  // ----- what the summary means ------------------------------------------------------------------

  predicate IsToolEnd(line: Line) {
    line.Event? && Get(line.fields, "type") == Str("tool_execution_end")
  }

  /** An assistant message that failed, by its own account. */
  predicate IsFailedTurn(line: Line) {
    line.Event? && IsAssistantEnd(line.fields) &&
    var message := Get(line.fields, "message").fields;
    Get(message, "errorMessage").Truthy() || Get(message, "stopReason") == Str("error")
  }

  predicate IsBadPart(part: Json) {
    part.Obj? && Get(part.fields, "type") == Str("text") && "text" in part.fields && !part.fields["text"].Str?
  }

  /** The lines `parse_events` chokes on, despite its promise to degrade: one that reading refuses, an event
      whose `type` is a list or an object, and an assistant message with a text part whose text is not a
      string. */
  predicate IsPoison(line: Line) {
    line.Refused? ||
    (line.Event? &&
     (|| Get(line.fields, "type").Arr?
      || Get(line.fields, "type").Obj?
      || (IsAssistantEnd(line.fields) &&
          var content := Get(Get(line.fields, "message").fields, "content");
          content.Arr? && exists k :: 0 <= k < |content.items| && IsBadPart(content.items[k]))))
  }

  predicate HasPoison(lines: seq<Line>) {
    exists k :: 0 <= k < |lines| && IsPoison(lines[k])
  }

  /** What an assistant message says; empty for every other line. */
  function Spoken(line: Line): string {
    if line.Event? && IsAssistantEnd(line.fields) then TextOf(Get(line.fields, "message").fields).GetOr("") else ""
  }

  /** The last thing the assistant said. */
  function LastSpoken(lines: seq<Line>): string {
    if lines == [] then ""
    else
      var later := LastSpoken(lines[1..]);
      if later != "" then later else Spoken(lines[0])
  }

  function CountToolEnds(lines: seq<Line>): nat {
    if lines == [] then 0 else (if IsToolEnd(lines[0]) then 1 else 0) + CountToolEnds(lines[1..])
  }

  lemma {:induction false} JoinTextsFailsIff(parts: seq<Json>)
    ensures JoinTexts(parts).None? <==> exists k :: 0 <= k < |parts| && IsBadPart(parts[k])
  {
    if parts != [] {
      JoinTextsFailsIff(parts[1..]);
      if k :| 0 <= k < |parts[1..]| && IsBadPart(parts[1..][k]) {
        assert IsBadPart(parts[k + 1]);
      }
      if k :| 0 < k < |parts| && IsBadPart(parts[k]) {
        assert IsBadPart(parts[1..][k - 1]);
      }
    }
  }

  lemma LineFailsIff(acc: Summary, line: Line)
    ensures ParseLine(acc, line).None? <==> IsPoison(line)
  {
    if line.Event? && IsAssistantEnd(line.fields) {
      var content := Get(line.fields["message"].fields, "content");
      if content.Arr? {
        JoinTextsFailsIff(content.items);
      }
    }
  }

  /** What one line that is read adds. */
  lemma LineMeaning(acc: Summary, line: Line)
    requires ParseLine(acc, line).Some?
    ensures var next := ParseLine(acc, line).value;
            && next.toolCalls == acc.toolCalls + (if IsToolEnd(line) then 1 else 0)
            && next.lastText == (if Spoken(line) != "" then Spoken(line) else acc.lastText)
            && (next.modelErrors == [] <==> acc.modelErrors == [] && !IsFailedTurn(line))
  {
  }

  /** The lines are read to the end exactly when none of them is poison; then the tool calls are counted, a
      model error is on record exactly when some assistant message failed, and the last text is the last
      thing the assistant said. */
  lemma {:induction false} ParseMeaning(acc: Summary, lines: seq<Line>)
    ensures Parse(acc, lines).None? <==> HasPoison(lines)
    ensures Parse(acc, lines).Some? ==>
      var s := Parse(acc, lines).value;
      && s.toolCalls == acc.toolCalls + CountToolEnds(lines)
      && s.lastText == (if LastSpoken(lines) != "" then LastSpoken(lines) else acc.lastText)
      && (s.modelErrors == [] <==> acc.modelErrors == [] && forall k :: 0 <= k < |lines| ==> !IsFailedTurn(lines[k]))
    decreases |lines|
  {
    if lines != [] {
      LineFailsIff(acc, lines[0]);
      var next := ParseLine(acc, lines[0]);
      PoisonHead(lines);
      if next.Some? {
        LineMeaning(acc, lines[0]);
        ParseMeaning(next.value, lines[1..]);
        assert lines == [lines[0]] + lines[1..];
      }
    }
  }

  lemma PoisonHead(lines: seq<Line>)
    requires lines != []
    ensures HasPoison(lines) <==> IsPoison(lines[0]) || HasPoison(lines[1..])
  {
    if k :| 0 <= k < |lines[1..]| && IsPoison(lines[1..][k]) {
      assert IsPoison(lines[k + 1]);
    }
    if k :| 0 < k < |lines| && IsPoison(lines[k]) {
      assert IsPoison(lines[1..][k - 1]);
    }
  }

  /** Which streams turn a run into a raised one: those with a poison line, and those whose last spoken text
      ends in a line that reading refuses. */
  lemma ParsedFailsIff(claims: Claims, lines: seq<Line>)
    ensures Parsed(claims, lines).None? <==> HasPoison(lines) || Chokes(claims, LastSpoken(lines))
    ensures Parsed(claims, lines).Some? ==>
      var s := Parsed(claims, lines).value;
      && s.toolCalls == CountToolEnds(lines) && s.lastText == LastSpoken(lines)
      && (s.modelErrors == [] <==> forall k :: 0 <= k < |lines| ==> !IsFailedTurn(lines[k]))
  {
    ParseMeaning(EMPTY, lines);
  }

  // ----- what goes on record as an error ---------------------------------------------------------

  /** The result of a tool call that failed. */
  function ToolFailure(line: Line): seq<Json> {
    if IsToolEnd(line) && Get(line.fields, "isError").Truthy() then [Get(line.fields, "result")] else []
  }

  function ToolFailures(lines: seq<Line>): seq<Json> {
    if lines == [] then [] else ToolFailure(lines[0]) + ToolFailures(lines[1..])
  }

  /** The failure a line reports; Null when it reports none. */
  function Reported(line: Line): Json {
    if line.Event? && IsAssistantEnd(line.fields) then FailureOf(Get(line.fields, "message").fields) else Null
  }

  /** Some line before k put this text on record. */
  predicate OnRecord(lines: seq<Line>, k: nat, text: Json)
    requires k <= |lines|
  {
    exists j :: 0 <= j < k && Reported(lines[j]).Truthy() && Truncated(Reported(lines[j])) == text
  }

  /** What line k puts on record: the failure it reports, cut to what fits, unless that is on record word for
      word, which a failure longer than what fits never is. */
  function NewFailure(lines: seq<Line>, k: nat): seq<Json>
    requires k < |lines|
  {
    var failure := Reported(lines[k]);
    if failure.Truthy() && !(failure.Str? && OnRecord(lines, k, failure)) then [Truncated(failure)] else []
  }

  function Failures(lines: seq<Line>, k: nat): seq<Json>
    requires k <= |lines|
    decreases |lines| - k
  {
    if k == |lines| then [] else NewFailure(lines, k) + Failures(lines, k + 1)
  }

  lemma LineErrors(acc: Summary, lines: seq<Line>, k: nat)
    requires k < |lines| && ParseLine(acc, lines[k]).Some?
    requires forall x :: x in acc.modelErrors <==> OnRecord(lines, k, x)
    ensures var next := ParseLine(acc, lines[k]).value;
            && next.toolErrors == acc.toolErrors + ToolFailure(lines[k])
            && next.modelErrors == acc.modelErrors + NewFailure(lines, k)
  {
    Regroup(acc.toolErrors, [], []);
    Regroup(acc.modelErrors, [], []);
  }

  lemma OnRecordNext(lines: seq<Line>, k: nat, text: Json)
    requires k < |lines|
    ensures OnRecord(lines, k + 1, text) <==> OnRecord(lines, k, text) || text in NewFailure(lines, k)
  {
  }

  /** What stands in the summary when the lines before k have been read stays, and is followed by what the
      rest of them report. */
  lemma {:induction false} ErrorsMeaning(acc: Summary, lines: seq<Line>, k: nat)
    requires k <= |lines| && Parse(acc, lines[k..]).Some?
    requires forall x :: x in acc.modelErrors <==> OnRecord(lines, k, x)
    ensures var s := Parse(acc, lines[k..]).value;
            && s.toolErrors == acc.toolErrors + ToolFailures(lines[k..])
            && s.modelErrors == acc.modelErrors + Failures(lines, k)
    decreases |lines| - k
  {
    if k == |lines| {
      Regroup(acc.toolErrors, [], []);
      Regroup(acc.modelErrors, [], []);
    } else {
      assert lines[k..][0] == lines[k] && lines[k..][1..] == lines[k + 1..];
      var next := ParseLine(acc, lines[k]).value;
      LineErrors(acc, lines, k);
      forall x ensures x in next.modelErrors <==> OnRecord(lines, k + 1, x) {
        OnRecordNext(lines, k, x);
      }
      ErrorsMeaning(next, lines, k + 1);
      Regroup(acc.toolErrors, ToolFailure(lines[k]), ToolFailures(lines[k + 1..]));
      Regroup(acc.modelErrors, NewFailure(lines, k), Failures(lines, k + 1));
    }
  }

  /** The errors a stream that is read leaves in the summary, all of them and in order. */
  lemma ErrorsOnRecord(claims: Claims, lines: seq<Line>)
    requires Parsed(claims, lines).Some?
    ensures var s := Parsed(claims, lines).value;
            s.toolErrors == ToolFailures(lines) && s.modelErrors == Failures(lines, 0)
  {
    assert lines[0..] == lines;
    ErrorsMeaning(EMPTY, lines, 0);
  }

  // ----- PiAgentAdapter.run ----------------------------------------------------------------------

  datatype Process = TimedOut | BinaryMissing | Broke | Exited(code: int, stdout: seq<Line>)

  /** Everything a pi run depends on. */
  datatype PiRun = PiRun(bundleOk: bool, directoryOk: bool, process: Process, claims: Claims)

  function SummaryKeys(s: Summary, claims: Claims): set<string> {
    {"tool_calls", "last_text"} + (if s.toolErrors != [] then {"tool_errors"} else {})
    + (if s.modelErrors != [] then {"model_errors"} else {})
    + (if s.lastText != "" && claims(s.lastText) == Some(true) then {"agent_reported"} else {})
  }

  function RunPi(run: PiRun): Reply<RunResult> {
    if !run.bundleOk then Got(RunResult(false, None, {}))
    else if !run.directoryOk then Crash
    else
      match run.process
      case TimedOut => Got(RunResult(false, None, {"adapter", "timeout_seconds"}))
      case BinaryMissing => Got(RunResult(false, None, {}))
      case Broke => Crash
      case Exited(code, stdout) =>
        var summary := Parsed(run.claims, stdout);
        if summary.None? then Crash
        else
          Got(RunResult(code == 0 && summary.value.modelErrors == [], None,
                        {"adapter"} + SummaryKeys(summary.value, run.claims)))
  }

  /** A run is ok exactly when pi ran, exited 0 and no assistant message in its stream failed; it never
      claims a count, and its detail never poses as a re-counted queue. */
  lemma PiVerdict(run: PiRun)
    requires RunPi(run).Got?
    ensures RunPi(run).value.ok <==>
      && run.bundleOk && run.process.Exited? && run.process.code == 0
      && forall k :: 0 <= k < |run.process.stdout| ==> !IsFailedTurn(run.process.stdout[k])
    ensures RunPi(run).value.itemsAdvanced.None? && "queue_remaining" !in RunPi(run).value.detailKeys
  {
    if run.process.Exited? {
      ParsedFailsIff(run.claims, run.process.stdout);
    }
  }

  lemma {:induction false} ToolFailuresIff(lines: seq<Line>)
    ensures ToolFailures(lines) != [] <==> exists k :: 0 <= k < |lines| && ToolFailure(lines[k]) != []
  {
    if lines != [] {
      ToolFailuresIff(lines[1..]);
      assert lines == [lines[0]] + lines[1..];
    }
  }

  lemma KeysSay(s: Summary, claims: Claims)
    ensures var keys := {"adapter"} + SummaryKeys(s, claims);
            && {"adapter", "tool_calls", "last_text"} <= keys
            && keys <= {"adapter", "tool_calls", "last_text", "tool_errors", "model_errors", "agent_reported"}
            && ("tool_errors" in keys <==> s.toolErrors != []) && ("model_errors" in keys <==> s.modelErrors != [])
            && ("agent_reported" in keys <==> s.lastText != "" && claims(s.lastText) == Some(true))
  {
  }

  /** What the detail of a run that was read says: whether a tool call failed, whether an assistant message
      did, and whether the last thing said ends in a claim. */
  lemma PiDetail(run: PiRun)
    requires run.bundleOk && run.process.Exited? && RunPi(run).Got?
    ensures var keys, lines := RunPi(run).value.detailKeys, run.process.stdout;
            && {"adapter", "tool_calls", "last_text"} <= keys
            && keys <= {"adapter", "tool_calls", "last_text", "tool_errors", "model_errors", "agent_reported"}
            && ("tool_errors" in keys <==> exists k :: 0 <= k < |lines| && ToolFailure(lines[k]) != [])
            && ("model_errors" in keys <==> exists k :: 0 <= k < |lines| && IsFailedTurn(lines[k]))
            && ("agent_reported" in keys <==> LastSpoken(lines) != "" && run.claims(LastSpoken(lines)) == Some(true))
  {
    ParsedFailsIff(run.claims, run.process.stdout);
    ErrorsOnRecord(run.claims, run.process.stdout);
    ToolFailuresIff(run.process.stdout);
    KeysSay(Parsed(run.claims, run.process.stdout).value, run.claims);
  }

  /** The run raises, and so loses its turn's report, exactly in these cases. */
  lemma PiRaisesIff(run: PiRun)
    ensures RunPi(run).Crash? <==>
      run.bundleOk &&
      (|| !run.directoryOk
       || run.process.Broke?
       || (run.process.Exited? &&
           (HasPoison(run.process.stdout) || Chokes(run.claims, LastSpoken(run.process.stdout)))))
  {
    if run.process.Exited? {
      ParsedFailsIff(run.claims, run.process.stdout);
    }
  }

  // ----- independence from the agent -------------------------------------------------------------

  /** What the record layer alone says about a turn: what left the queue, and whether anything moved. */
  function Evidence(queue: nat, recount: Reply<nat>, before: Reply<(nat, nat)>, after: Reply<(nat, nat)>)
    : (Option<int>, bool)
  {
    var left := if recount.Got? && recount.value <= queue then queue - recount.value else 0;
    (if recount.Got? then Some(left) else None, left > 0 || MarksGrew(Marks(before), Marks(after)))
  }

  /** With the queue re-counted, no adapter's word changes anything; without it, an adapter's claim is
      believed when the run was ok or its detail poses as a re-count. */
  lemma WhatAnAdapterCanSay(queue: nat, look: Look, result: RunResult)
    ensures look.recount.Got? ==>
      (Advanced(queue, look.recount, result), Moved(queue, look, result))
      == Evidence(queue, look.recount, look.marksBefore, look.marksAfter)
    ensures !look.recount.Got? ==>
      (Moved(queue, look, result) <==>
        || MarksGrew(Marks(look.marksBefore), Marks(look.marksAfter))
        || (result.itemsAdvanced.GetOr(0) > 0 && (result.ok || "queue_remaining" in result.detailKeys)))
  {
  }

  /** For pi the record layer alone decides, re-counted or not. */
  lemma PiIsNotBelieved(queue: nat, look: Look, run: PiRun)
    requires RunPi(run).Got?
    ensures (Advanced(queue, look.recount, RunPi(run).value), Moved(queue, look, RunPi(run).value))
            == Evidence(queue, look.recount, look.marksBefore, look.marksAfter)
  {
    PiVerdict(run);
    WhatAnAdapterCanSay(queue, look, RunPi(run).value);
  }

  /** Two ledgers that agree but for the verdict on row `run`. */
  predicate SameButVerdict(a: seq<RunRow>, b: seq<RunRow>, run: nat) {
    && |a| == |b|
    && forall k :: 0 <= k < |a| ==> a[k].(status := b[k].status) == b[k] && (k != run ==> a[k] == b[k])
  }

  ghost predicate SameButForVerdict(a: Step, b: Step, run: nat) {
    && a.w.db.drivers == b.w.db.drivers && a.w.calls == b.w.calls && a.state == b.state
    && a.ending == b.ending && a.facts == b.facts
    && SameButVerdict(a.w.db.runs, b.w.db.runs, run)
  }

  lemma EitherVerdict(wire: Wire, run: nat, s: RunStatus, t: RunStatus, advanced: Option<int>, db: Records)
    ensures var a := Send(wire, db, HandleClose(db, run, s, advanced));
            var b := Send(wire, db, HandleClose(db, run, t, advanced));
            && a.0.drivers == b.0.drivers && a.1 == b.1 && SameButVerdict(a.0.runs, b.0.runs, run)
  {
  }

  lemma TurnIndependence(cfg: Config, sub: Subscription, st: SubscriptionState, queue: nat, run: nat, look: Look,
                         w: World, a: RunResult, b: RunResult)
    requires Advanced(queue, look.recount, a) == Advanced(queue, look.recount, b)
    requires Moved(queue, look, a) == Moved(queue, look, b)
    ensures SameButForVerdict(AgentTurn(cfg, sub, st, queue, run, look.(agent := Got(a)), w),
                              AgentTurn(cfg, sub, st, queue, run, look.(agent := Got(b)), w), run)
  {
    var db1 := NoteProgress(cfg, sub, Moved(queue, look, a), look.report, w.db).0;
    assert Moved(queue, look.(agent := Got(a)), a) == Moved(queue, look.(agent := Got(b)), b);
    EitherVerdict(look.close, run, if a.ok then Succeeded else Failed, if b.ok then Succeeded else Failed,
                  Advanced(queue, look.recount, a), db1);
  }

  /** Whether the dispatch gets as far as calling the agent. */
  predicate ReachesAgent(sub: Subscription, look: Look, w: World) {
    && FindsWork(look) && look.open.Delivered? && sub.id in w.db.drivers && !look.marksBefore.Crash?
  }

  lemma AgentDoesNotMatterBefore(cfg: Config, sub: Subscription, st: SubscriptionState, look: Look, w: World,
                                 a: Reply<RunResult>)
    requires !ReachesAgent(sub, look, w)
    ensures Dispatch(cfg, sub, st, look.(agent := a), w) == Dispatch(cfg, sub, st, look, w)
  {
  }

  /** Two worlds that differ only in what pi did and said: unless it made the adapter raise, they leave
      the same driver states, the same park, the same advanced counts and the same open rows. */
  lemma AgentOutputIndependence(cfg: Config, sub: Subscription, st: SubscriptionState, look: Look, w: World,
                                a: PiRun, b: PiRun)
    requires RunPi(a).Got? && RunPi(b).Got?
    ensures SameButForVerdict(Dispatch(cfg, sub, st, look.(agent := RunPi(a)), w),
                              Dispatch(cfg, sub, st, look.(agent := RunPi(b)), w), |w.db.runs|)
  {
    if ReachesAgent(sub, look, w) {
      PiIsNotBelieved(look.queue.value, look, a);
      PiIsNotBelieved(look.queue.value, look, b);
      var db1 := Send(look.open, w.db, HandleOpen(w.db, WorkRow(sub, look.queue.value))).0;
      var w1, run := w.(db := db1), |w.db.runs|;
      TurnIndependence(cfg, sub, st, look.queue.value, run, look, w1, RunPi(a).value, RunPi(b).value);
    } else {
      AgentDoesNotMatterBefore(cfg, sub, st, look, w, RunPi(a));
      AgentDoesNotMatterBefore(cfg, sub, st, look, w, RunPi(b));
    }
  }

  /** The whole extent of pi's influence: when the rest of the dispatch goes through, two runs of pi
      leave the same record of the turn exactly when both make the adapter raise or neither does. */
  lemma OnlyRaisingTells(cfg: Config, sub: Subscription, st: SubscriptionState, look: Look, w: World, a: PiRun,
                         b: PiRun)
    requires ReachesAgent(sub, look, w) && !look.recount.Crash? && !look.marksAfter.Crash? && look.report.Arrives()
    requires !w.db.drivers[sub.id].parked
    ensures Dispatch(cfg, sub, st, look.(agent := RunPi(a)), w).facts
            == Dispatch(cfg, sub, st, look.(agent := RunPi(b)), w).facts
            <==> (RunPi(a).Got? <==> RunPi(b).Got?)
  {
    if RunPi(a).Got? && RunPi(b).Got? {
      AgentOutputIndependence(cfg, sub, st, look, w, a, b);
    }
  }

  /** An assistant message with this content. */
  function Says(content: Json): Line {
    Event(map["type" := Str("message_end"),
              "message" := Obj(map["role" := Str("assistant"), "content" := content])])
  }

  /** One text part that is null instead of a string is enough to lose the turn's report. */
  lemma NullTextLosesTheTurn(code: int, claims: Claims)
    ensures var part := Obj(map["type" := Str("text"), "text" := Null]);
            RunPi(PiRun(true, true, Exited(code, [Says(Arr([part]))]), claims)) == Crash
  {
    var part := Obj(map["type" := Str("text"), "text" := Null]);
    var line := Says(Arr([part]));
    assert Get(Get(line.fields, "message").fields, "content").items[0] == part && IsBadPart(part);
    assert IsPoison([line][0]);
    ParseMeaning(EMPTY, [line]);
  }

  /** So is one well-formed message whose text ends in a line that reading refuses, such as an object with
      an integer of more digits than Python converts. */
  lemma RefusedClaimLosesTheTurn(code: int, claims: Claims, text: string)
    requires Chokes(claims, text)
    ensures !HasPoison([Says(Str(text))]) && RunPi(PiRun(true, true, Exited(code, [Says(Str(text))]), claims)) == Crash
  {
    var line := Says(Str(text));
    assert Spoken(line) == text;
    assert LastSpoken([line]) == text;
    PiRaisesIff(PiRun(true, true, Exited(code, [line]), claims));
  }
}

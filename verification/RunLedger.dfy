/**
 What one pass may write to the run ledger, which rows it leaves open, and when it raises
 (flow_runner/dispatcher.py:88-134, 136-331).
 */
module RunLedger {
  import opened Options
  import opened RecordLayer
  import opened Dispatching
  import opened Fairness

  predicate Closed(row: RunRow) { row.status != Running }

  /** What one dispatch did to the ledger: old rows stand, at most one row was added and it is this
      subscription's, and a row the dispatch returns is that one, closed. */
  ghost predicate LedgerStep(before: World, step: Step, id: SubId) {
    var old', new' := before.db.runs, step.w.db.runs;
    && old' <= new' && |new'| <= |old'| + 1
    && (|new'| > |old'| ==> new'[|old'|].sub == id)
    && (step.ending.Returned? && step.ending.row.Some? ==>
          step.ending.row.value == |old'| < |new'| && Closed(new'[|old'|]))
  }

  /** An agent turn and its row: one call, and a dispatch that says it spent one returns the row. */
  ghost predicate TurnStep(before: World, step: Step, id: SubId) {
    && (step.w.calls == before.calls || step.w.calls == before.calls + [id])
    && (step.w.calls != before.calls ==> step.ending.Raised? || step.ending.spent)
    && (step.ending.Returned? && step.ending.spent ==>
          step.w.calls != before.calls && step.ending.row.Some?)
  }

  lemma FailedCheckLedger(cfg: Config, sub: Subscription, st: SubscriptionState, look: Look, w: World)
    ensures LedgerStep(w, FailedCheck(cfg, sub, st, look, w), sub.id)
  {
  }

  lemma IdleLedger(cfg: Config, sub: Subscription, st: SubscriptionState, reason: Option<string>, look: Look, w: World)
    ensures LedgerStep(w, ReportIdle(cfg, sub, st, reason, look, w), sub.id)
  {
  }

  /** From the moment the row is open, whether or not the runner heard about it. */
  lemma TurnLedger(cfg: Config, sub: Subscription, st: SubscriptionState, queue: nat, look: Look, w: World,
                   old': seq<RunRow>)
    requires |w.db.runs| == |old'| + 1 && old' <= w.db.runs && w.db.runs[|old'|].sub == sub.id
    ensures LedgerStep(w.(db := w.db.(runs := old')), AgentTurn(cfg, sub, st, queue, |old'|, look, w), sub.id)
  {
  }

  lemma DispatchLedger(cfg: Config, sub: Subscription, st: SubscriptionState, look: Look, w: World)
    ensures LedgerStep(w, Dispatch(cfg, sub, st, look, w), sub.id)
  {
    if ChecksFail(look) {
      FailedCheckLedger(cfg, sub, st, look, w);
    } else if IdleReason(look).Some? {
      IdleLedger(cfg, sub, st, IdleReason(look).value, look, w);
    } else if FindsWork(look) {
      var row := WorkRow(sub, look.queue.value);
      var (db1, openReply) := Send(look.open, w.db, HandleOpen(w.db, row));
      if openReply.Got? {
        TurnLedger(cfg, sub, st, look.queue.value, look, w.(db := db1), w.db.runs);
      }
    }
  }

  lemma FailedCheckTurn(cfg: Config, sub: Subscription, st: SubscriptionState, look: Look, w: World)
    ensures TurnStep(w, FailedCheck(cfg, sub, st, look, w), sub.id)
  {
  }

  lemma AgentTurnStep(cfg: Config, sub: Subscription, st: SubscriptionState, queue: nat, run: nat, look: Look, w: World)
    ensures TurnStep(w, AgentTurn(cfg, sub, st, queue, run, look, w), sub.id)
  {
  }

  lemma DispatchTurn(cfg: Config, sub: Subscription, st: SubscriptionState, look: Look, w: World)
    ensures TurnStep(w, Dispatch(cfg, sub, st, look, w), sub.id)
  {
    if ChecksFail(look) {
      FailedCheckTurn(cfg, sub, st, look, w);
    } else if FindsWork(look) {
      var row := WorkRow(sub, look.queue.value);
      var (db1, openReply) := Send(look.open, w.db, HandleOpen(w.db, row));
      if openReply.Got? {
        AgentTurnStep(cfg, sub, st, look.queue.value, openReply.value, look, w.(db := db1));
      }
    }
  }

  // ----- when a dispatch raises, and which rows it leaves open -----------------------------------

  /** The request ends in an exception that is not an `ApiError`. */
  predicate Crashes(wire: Wire) {
    !wire.Delivered? && wire.crash
  }

  /** A write nobody catches anything for: whatever is not an answer raises. */
  predicate Fails(wire: Wire) {
    !wire.Delivered?
  }

  /** `record_failed_check` itself raises exactly when opening its row, or closing the row it opened, meets
      something other than an `ApiError`. */
  lemma FailedRowRaisesIff(sub: Subscription, st: SubscriptionState, look: Look, w: World)
    ensures FailedRow(sub, st, look, w).ending.Raised? <==>
      Crashes(look.open) || (look.open.Delivered? && sub.id in w.db.drivers && Crashes(look.close))
  {
  }

  /** The whole branch raises in these cases, and when the driver-state report before them does. */
  lemma FailedCheckRaisesIff(cfg: Config, sub: Subscription, st: SubscriptionState, look: Look, w: World)
    ensures FailedCheck(cfg, sub, st, look, w).ending.Raised? <==>
      || Crashes(look.report)
      || Crashes(look.open)
      || (look.open.Delivered? && sub.id in w.db.drivers && Crashes(look.close))
  {
    var (db1, noted) := NoteProgress(cfg, sub, false, look.report, w.db);
    FailedRowRaisesIff(sub, st, look, w.(db := db1));
  }

  /** Between its open row and its close request, a turn is lost when one of these goes wrong. */
  predicate TurnBreaks(look: Look) {
    || look.marksBefore.Crash? || !look.agent.Got? || look.recount.Crash? || look.marksAfter.Crash?
    || Crashes(look.report)
  }

  /** When a dispatch of a known subscription raises, in terms of what it meets. */
  lemma DispatchRaisesIff(cfg: Config, sub: Subscription, st: SubscriptionState, look: Look, w: World)
    requires sub.id in w.db.drivers
    ensures Dispatch(cfg, sub, st, look, w).ending.Raised? <==>
      || look.workflow.Crash?
      || (look.workflow == Got(true) && look.queue.Crash?)
      || (ChecksFail(look) &&
          (Crashes(look.report) || Crashes(look.open) || (look.open.Delivered? && Crashes(look.close))))
      || (IdleReason(look).Some? && IdleIsNews(st, IdleReason(look).value, look.idleNow, cfg.idleSeconds)
          && (Fails(look.open) || Fails(look.close)))
      || (FindsWork(look) && (Fails(look.open) || TurnBreaks(look) || Fails(look.close)))
  {
    if ChecksFail(look) {
      FailedCheckRaisesIff(cfg, sub, st, look, w);
    }
  }

  /** One dropped connection while opening its row is enough for the check that must not raise. */
  lemma DroppedConnectionRaises(cfg: Config, sub: Subscription, st: SubscriptionState, look: Look, w: World)
    ensures var dropped := look.(workflow := ApiFailure, report := Delivered, open := RequestLost(true));
            Dispatch(cfg, sub, st, dropped, w).ending.Raised?
  {
    var dropped := look.(workflow := ApiFailure, report := Delivered, open := RequestLost(true));
    FailedCheckRaisesIff(cfg, sub, st, dropped, w);
  }

  /** What leaves a row open: the runner never heard of it, the turn broke before its close request, or
      that request never arrived. */
  predicate LeavesOpen(look: Look) {
    Fails(look.open) || !look.close.Arrives() || (FindsWork(look) && TurnBreaks(look))
  }

  lemma FailedCheckOpenIff(cfg: Config, sub: Subscription, st: SubscriptionState, look: Look, w: World)
    ensures var runs := FailedCheck(cfg, sub, st, look, w).w.db.runs;
            |runs| > |w.db.runs| ==> (Closed(runs[|w.db.runs|]) <==> !Fails(look.open) && look.close.Arrives())
  {
  }

  lemma IdleOpenIff(cfg: Config, sub: Subscription, st: SubscriptionState, reason: Option<string>, look: Look, w: World)
    ensures var runs := ReportIdle(cfg, sub, st, reason, look, w).w.db.runs;
            |runs| > |w.db.runs| ==> (Closed(runs[|w.db.runs|]) <==> !Fails(look.open) && look.close.Arrives())
  {
  }

  lemma TurnOpenIff(cfg: Config, sub: Subscription, st: SubscriptionState, queue: nat, run: nat, look: Look, w: World)
    requires run < |w.db.runs| && w.db.runs[run].status == Running && !look.marksBefore.Crash?
    ensures var runs := AgentTurn(cfg, sub, st, queue, run, look, w).w.db.runs;
            |runs| == |w.db.runs| && (Closed(runs[run]) <==> !TurnBreaks(look) && look.close.Arrives())
  {
  }

  /** A row a dispatch adds ends closed exactly when nothing on the list above happened. */
  lemma DispatchOpenIff(cfg: Config, sub: Subscription, st: SubscriptionState, look: Look, w: World)
    ensures var runs := Dispatch(cfg, sub, st, look, w).w.db.runs;
            |runs| > |w.db.runs| ==> (Closed(runs[|w.db.runs|]) <==> !LeavesOpen(look))
  {
    if ChecksFail(look) {
      FailedCheckOpenIff(cfg, sub, st, look, w);
    } else if IdleReason(look).Some? {
      IdleOpenIff(cfg, sub, st, IdleReason(look).value, look, w);
    } else if FindsWork(look) {
      var row := WorkRow(sub, look.queue.value);
      var (db1, openReply) := Send(look.open, w.db, HandleOpen(w.db, row));
      if openReply.Got? && !look.marksBefore.Crash? {
        TurnOpenIff(cfg, sub, st, look.queue.value, openReply.value, look, w.(db := db1));
      }
    }
  }

  /** Nothing goes missing and nothing but the API's own refusals comes back; a failed check is fine. */
  predicate Calm(look: Look) {
    && look.open.Delivered? && look.close.Delivered? && look.report.Delivered?
    && !look.workflow.Crash? && !look.queue.Crash? && !(FindsWork(look) && TurnBreaks(look))
  }

  lemma CalmDispatch(cfg: Config, sub: Subscription, st: SubscriptionState, look: Look, w: World)
    requires Calm(look) && sub.id in w.db.drivers
    ensures var step := Dispatch(cfg, sub, st, look, w);
            && step.ending.Returned? && step.w.db.drivers.Keys == w.db.drivers.Keys
            && (|step.w.db.runs| > |w.db.runs| ==> step.ending.row == Some(|w.db.runs|))
  {
    DispatchRaisesIff(cfg, sub, st, look, w);
  }

  // ----- the pass --------------------------------------------------------------------------------

  /** The ledger after a pass that got to `polled` and returned `rows`. */
  ghost predicate LedgerPass(before: World, p: Pass) {
    var n, runs := |before.db.runs|, p.w.db.runs;
    && before.db.runs <= runs
    && (forall k :: n <= k < |runs| ==> runs[k].sub in p.polled)
    && (forall j, k :: n <= j < k < |runs| ==> runs[j].sub != runs[k].sub)
    && (p.rows.Some? ==> forall k :: 0 <= k < |p.rows.value| ==>
          n <= p.rows.value[k] < |runs| && Closed(runs[p.rows.value[k]]))
  }

  /** At most one agent turn; it is the last thing the pass does, and its row is the last recorded. */
  ghost predicate TurnPass(before: World, p: Pass) {
    p.w.calls == before.calls ||
    (p.polled != [] &&
     var id := p.polled[|p.polled| - 1];
     && p.w.calls == before.calls + [id]
     && (p.rows.Some? ==>
          (p.rows.value != [] &&
           var row := p.rows.value[|p.rows.value| - 1];
           row == |p.w.db.runs| - 1 && p.w.db.runs[row].sub == id)))
  }

  lemma {:induction false} PolledAreListed(cfg: Config, now: int, items: seq<Item>, state: Hints, w: World, id: SubId)
    requires id in PollFrom(cfg, now, items, state, w).polled
    ensures exists i :: 0 <= i < |items| && items[i].sub.id == id
    decreases |items|
  {
    var v := VisitItem(cfg, now, items[0], state, w);
    if id in v.polled {
      assert items[0].sub.id == id;
    } else {
      PolledAreListed(cfg, now, items[1..], v.state, v.w, id);
      var i :| 0 <= i < |items[1..]| && items[1..][i].sub.id == id;
      assert items[i + 1].sub.id == id;
    }
  }

  lemma VisitLedger(cfg: Config, now: int, item: Item, state: Hints, w: World)
    ensures var v := VisitItem(cfg, now, item, state, w);
            var step := Step(FRESH, v.w, v.ending, []);
            && (v.polled == [] || v.polled == [item.sub.id])
            && LedgerStep(w, step, item.sub.id) && TurnStep(w, step, item.sub.id)
            && (v.polled == [] ==>
                  v.w.db.runs == w.db.runs && v.w.calls == w.calls && v.ending == Returned(None, false))
  {
    var w0 := w.(db := ClearParks(w.db, item.cleared));
    var st := Stamp(state, item.sub.id, now)[item.sub.id];
    DispatchLedger(cfg, item.sub, st, item.look, w0);
    DispatchTurn(cfg, item.sub, st, item.look, w0);
  }

  lemma JoinLedger(w: World, v: Visit, rest: Pass, id: SubId)
    requires LedgerStep(w, Step(FRESH, v.w, v.ending, []), id) && v.ending.Returned?
    requires v.polled == [] ==> v.w.db.runs == w.db.runs
    requires v.polled == [] || v.polled == [id]
    requires LedgerPass(v.w, rest) && id !in rest.polled
    ensures LedgerPass(w, Pass(rest.state, rest.w, if rest.rows.Some? then Some(v.Rows() + rest.rows.value) else None,
                               v.polled + rest.polled, v.facts + rest.facts))
  {
    var runs := rest.w.db.runs;
    forall k | |w.db.runs| <= k < |runs|
      ensures runs[k].sub in v.polled + rest.polled
    {
      if k == |w.db.runs| && |v.w.db.runs| > k {
        assert runs[k].sub == v.w.db.runs[k].sub;
      }
    }
  }

  lemma StopLedger(w: World, v: Visit, id: SubId)
    requires LedgerStep(w, Step(FRESH, v.w, v.ending, []), id) && v.polled == [id]
    ensures LedgerPass(w, Pass(v.state, v.w, if v.ending.Raised? then None else Some(v.Rows()), v.polled, v.facts))
  {
  }

  lemma {:induction false} PassLedger(cfg: Config, now: int, items: seq<Item>, state: Hints, w: World)
    requires DistinctSubs(Subs(items))
    ensures LedgerPass(w, PollFrom(cfg, now, items, state, w))
    decreases |items|
  {
    if items != [] {
      var v := VisitItem(cfg, now, items[0], state, w);
      VisitLedger(cfg, now, items[0], state, w);
      if v.Stops() {
        StopLedger(w, v, items[0].sub.id);
      } else {
        assert Subs(items[1..]) == Subs(items)[1..];
        PassLedger(cfg, now, items[1..], v.state, v.w);
        var rest := PollFrom(cfg, now, items[1..], v.state, v.w);
        if items[0].sub.id in rest.polled {
          PolledAreListed(cfg, now, items[1..], v.state, v.w, items[0].sub.id);
        }
        JoinLedger(w, v, rest, items[0].sub.id);
      }
    }
  }

  lemma StopTurn(w: World, v: Visit, id: SubId)
    requires LedgerStep(w, Step(FRESH, v.w, v.ending, []), id) && TurnStep(w, Step(FRESH, v.w, v.ending, []), id)
    requires v.polled == [id] && v.Stops()
    ensures TurnPass(w, Pass(v.state, v.w, if v.ending.Raised? then None else Some(v.Rows()), v.polled, v.facts))
  {
  }

  lemma JoinTurn(w: World, v: Visit, rest: Pass)
    requires v.w.calls == w.calls && v.ending.Returned? && TurnPass(v.w, rest)
    ensures TurnPass(w, Pass(rest.state, rest.w, if rest.rows.Some? then Some(v.Rows() + rest.rows.value) else None,
                             v.polled + rest.polled, v.facts + rest.facts))
  {
  }

  lemma {:induction false} PassTurn(cfg: Config, now: int, items: seq<Item>, state: Hints, w: World)
    ensures TurnPass(w, PollFrom(cfg, now, items, state, w))
    decreases |items|
  {
    if items != [] {
      var v := VisitItem(cfg, now, items[0], state, w);
      VisitLedger(cfg, now, items[0], state, w);
      if v.Stops() {
        StopTurn(w, v, items[0].sub.id);
      } else {
        PassTurn(cfg, now, items[1..], v.state, v.w);
        JoinTurn(w, v, PollFrom(cfg, now, items[1..], v.state, v.w));
      }
    }
  }

  /** The row at index r is `item`'s, and closed exactly when nothing left it open. */
  ghost predicate TellsOpen(item: Item, row: RunRow) {
    item.sub.id == row.sub && (Closed(row) <==> !LeavesOpen(item.look))
  }

  lemma VisitOpen(cfg: Config, now: int, item: Item, state: Hints, w: World)
    ensures var v := VisitItem(cfg, now, item, state, w);
            && w.db.runs <= v.w.db.runs && |v.w.db.runs| <= |w.db.runs| + 1
            && (|v.w.db.runs| > |w.db.runs| ==> TellsOpen(item, v.w.db.runs[|w.db.runs|]))
  {
    var w0 := w.(db := ClearParks(w.db, item.cleared));
    var st := Stamp(state, item.sub.id, now)[item.sub.id];
    DispatchLedger(cfg, item.sub, st, item.look, w0);
    DispatchOpenIff(cfg, item.sub, st, item.look, w0);
  }

  ghost predicate ToldBySome(items: seq<Item>, row: RunRow) {
    exists i :: 0 <= i < |items| && TellsOpen(items[i], row)
  }

  ghost predicate RowsTold(items: seq<Item>, before: seq<RunRow>, after: seq<RunRow>) {
    && before <= after
    && forall r :: |before| <= r < |after| ==> ToldBySome(items, after[r])
  }

  lemma JoinOpen(items: seq<Item>, before: seq<RunRow>, mid: seq<RunRow>, after: seq<RunRow>)
    requires items != [] && before <= mid && |mid| <= |before| + 1
    requires |mid| > |before| ==> TellsOpen(items[0], mid[|before|])
    requires RowsTold(items[1..], mid, after)
    ensures RowsTold(items, before, after)
  {
    assert before <= after by {
      assert mid == after[..|mid|];
    }
    forall r | |before| <= r < |after|
      ensures ToldBySome(items, after[r])
    {
      if r < |mid| {
        assert after[r] == mid[r] && TellsOpen(items[0], after[r]);
      } else {
        assert ToldBySome(items[1..], after[r]);
        var i :| 0 <= i < |items[1..]| && TellsOpen(items[1..][i], after[r]);
        assert TellsOpen(items[i + 1], after[r]);
      }
    }
  }

  /** Of every row a pass adds, whatever happened to its other rows: it is a listed subscription's, and it
      is left open exactly when that subscription's own look leaves it open. Older rows stand. */
  lemma {:induction false} OpenRowsAreAccountedFor(cfg: Config, now: int, items: seq<Item>, state: Hints, w: World)
    ensures RowsTold(items, w.db.runs, PollFrom(cfg, now, items, state, w).w.db.runs)
    decreases |items|
  {
    if items != [] {
      var v := VisitItem(cfg, now, items[0], state, w);
      VisitOpen(cfg, now, items[0], state, w);
      if v.Stops() {
        JoinOpen(items, w.db.runs, v.w.db.runs, v.w.db.runs);
      } else {
        OpenRowsAreAccountedFor(cfg, now, items[1..], v.state, v.w);
        JoinOpen(items, w.db.runs, v.w.db.runs, PollFrom(cfg, now, items[1..], v.state, v.w).w.db.runs);
      }
    }
  }

  lemma CalmVisit(cfg: Config, now: int, item: Item, state: Hints, w: World)
    requires Calm(item.look) && item.sub.id in w.db.drivers
    ensures var v := VisitItem(cfg, now, item, state, w);
            && v.ending.Returned? && v.w.db.drivers.Keys == w.db.drivers.Keys
            && (|v.w.db.runs| > |w.db.runs| ==> v.ending.row == Some(|w.db.runs|))
  {
    var w0 := w.(db := ClearParks(w.db, item.cleared));
    assert w0.db.drivers.Keys == w.db.drivers.Keys;
    CalmDispatch(cfg, item.sub, Stamp(state, item.sub.id, now)[item.sub.id], item.look, w0);
  }

  /** When nothing goes missing the pass returns exactly the rows it opened, in order, failed checks
      included; and so, by `PassLedger`, all of them are closed. */
  lemma {:induction false} CalmPass(cfg: Config, now: int, items: seq<Item>, state: Hints, w: World)
    requires forall i :: 0 <= i < |items| ==> Calm(items[i].look) && items[i].sub.id in w.db.drivers
    ensures var p := PollFrom(cfg, now, items, state, w);
            && p.rows.Some? && |w.db.runs| + |p.rows.value| == |p.w.db.runs|
            && forall k :: 0 <= k < |p.rows.value| ==> p.rows.value[k] == |w.db.runs| + k
    decreases |items|
  {
    if items != [] {
      var v := VisitItem(cfg, now, items[0], state, w);
      CalmVisit(cfg, now, items[0], state, w);
      VisitLedger(cfg, now, items[0], state, w);
      if !v.Stops() {
        CalmPass(cfg, now, items[1..], v.state, v.w);
      }
    }
  }
}

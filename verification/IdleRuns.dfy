/**
 The idle rows in the ledger of a whole run: passes, restarts, lost requests and operators
 (flow_runner/dispatcher.py:88-134, 285-331). `RunTellsIdle` carries what `IdleReports` says about
 traces over to the rows `SpendBound.Run` leaves behind.
 */
module IdleRuns {
  import opened Options
  import opened RecordLayer
  import opened Dispatching
  import opened Fairness
  import opened RunLedger
  import opened SpendBound
  import opened IdleReports

  /** The reasons the idle rows of `id` give, oldest first. */
  function IdleSaid(runs: seq<RunRow>, id: SubId): seq<Option<string>> {
    if runs == [] then []
    else IdleSaid(runs[..|runs| - 1], id) + if IsIdleRow(runs[|runs| - 1], id) then [runs[|runs| - 1].reason] else []
  }

  function Reasons(rows: seq<IdleRow>): (reasons: seq<Option<string>>)
    ensures |reasons| == |rows| && forall k :: 0 <= k < |rows| ==> reasons[k] == rows[k].reason
  {
    seq(|rows|, k requires 0 <= k < |rows| => rows[k].reason)
  }

  // ----- the idle looks of a run -----------------------------------------------------------------

  function VisitLooks(now: int, item: Item, state: Hints, id: SubId): seq<IdleEvent> {
    if item.sub.id == id && DueAt(state, item.sub, now) && IdleReason(item.look).Some? then
      [Looked(IdleReason(item.look).value, item.look.idleNow, item.look.open.Arrives())]
    else []
  }

  function PassLooks(cfg: Config, now: int, items: seq<Item>, state: Hints, w: World, id: SubId): seq<IdleEvent>
    decreases |items|
  {
    if items == [] then []
    else
      var v := VisitItem(cfg, now, items[0], state, w);
      VisitLooks(now, items[0], state, id) + if v.Stops() then [] else PassLooks(cfg, now, items[1..], v.state, v.w, id)
  }

  function EventLooks(cfg: Config, sys: System, e: Event, id: SubId): seq<IdleEvent> {
    match e
    case PassEvent(now, Got(items)) => PassLooks(cfg, now, items, sys.state, sys.w, id)
    case PassEvent(_, _) => []
    case Restart => [Restarted]
    case OperatorsClear(_) => []
  }

  function RunLooks(cfg: Config, sys: System, events: seq<Event>, id: SubId): seq<IdleEvent>
    decreases |events|
  {
    if events == [] then []
    else EventLooks(cfg, sys, events[0], id) + RunLooks(cfg, Advance(cfg, sys, events[0]), events[1..], id)
  }

  // ----- the trace and the run keep in step ------------------------------------------------------

  /** The trace holds what the runner remembers about `id`, and since `base` the ledger has gained exactly
      the rows of the trace that arrived. */
  predicate InStep(tr: Trace, state: Hints, w: World, id: SubId, base: seq<Option<string>>) {
    && id in w.db.drivers && tr.st == IdlePart(Lookup(state, id))
    && IdleSaid(w.db.runs, id) == base + Reasons(Arrived(tr.rows))
  }

  lemma IdleSaidGrows(before: seq<RunRow>, after: seq<RunRow>, id: SubId)
    requires before <= after && |after| <= |before| + 1
    ensures IdleSaid(after, id)
            == IdleSaid(before, id)
               + if |after| > |before| && IsIdleRow(after[|before|], id) then [after[|before|].reason] else []
  {
    if |after| > |before| {
      assert after[..|after| - 1] == before;
    } else {
      assert after == before;
    }
  }

  lemma ArrivedGrows(tr: Trace, e: IdleEvent, every: int)
    ensures var next := Observe(tr, e, every);
            Reasons(Arrived(next.rows))
            == Reasons(Arrived(tr.rows)) + if |next.rows| > |tr.rows| && e.arrives then [e.reason] else []
  {
    var next := Observe(tr, e, every);
    if |next.rows| > |tr.rows| {
      assert next.rows[..|next.rows| - 1] == tr.rows;
    }
  }

  lemma DispatchKeepsStep(cfg: Config, sub: Subscription, st: SubscriptionState, look: Look, w: World, tr: Trace,
                          base: seq<Option<string>>)
    requires sub.id in w.db.drivers && tr.st == IdlePart(st)
    requires IdleSaid(w.db.runs, sub.id) == base + Reasons(Arrived(tr.rows))
    ensures var step, idle := Dispatch(cfg, sub, st, look, w), IdleReason(look);
            var next := if idle.None? then tr
                        else Observe(tr, Looked(idle.value, look.idleNow, look.open.Arrives()), cfg.idleSeconds);
            next.st == IdlePart(step.state) && IdleSaid(step.w.db.runs, sub.id) == base + Reasons(Arrived(next.rows))
  {
    var runs := Dispatch(cfg, sub, st, look, w).w.db.runs;
    DispatchObserves(cfg, sub, st, tr, look, w);
    DispatchLedger(cfg, sub, st, look, w);
    IdleSaidGrows(w.db.runs, runs, sub.id);
    if IdleReason(look).Some? {
      ArrivedGrows(tr, Looked(IdleReason(look).value, look.idleNow, look.open.Arrives()), cfg.idleSeconds);
    }
  }

  lemma FailedCheckKeepsKeys(cfg: Config, sub: Subscription, st: SubscriptionState, look: Look, w: World)
    ensures FailedCheck(cfg, sub, st, look, w).w.db.drivers.Keys == w.db.drivers.Keys
  {
  }

  lemma TurnKeepsKeys(cfg: Config, sub: Subscription, st: SubscriptionState, queue: nat, run: nat, look: Look, w: World)
    ensures AgentTurn(cfg, sub, st, queue, run, look, w).w.db.drivers.Keys == w.db.drivers.Keys
  {
  }

  lemma DispatchKeepsKeys(cfg: Config, sub: Subscription, st: SubscriptionState, look: Look, w: World)
    ensures Dispatch(cfg, sub, st, look, w).w.db.drivers.Keys == w.db.drivers.Keys
  {
    if ChecksFail(look) {
      FailedCheckKeepsKeys(cfg, sub, st, look, w);
    } else if FindsWork(look) {
      var (db1, openReply) := Send(look.open, w.db, HandleOpen(w.db, WorkRow(sub, look.queue.value)));
      if openReply.Got? {
        TurnKeepsKeys(cfg, sub, st, look.queue.value, openReply.value, look, w.(db := db1));
      }
    }
  }

  lemma KnownStays(cfg: Config, now: int, item: Item, state: Hints, w: World, id: SubId)
    requires id in w.db.drivers
    ensures id in VisitItem(cfg, now, item, state, w).w.db.drivers
  {
    var w0 := w.(db := ClearParks(w.db, item.cleared));
    assert w0.db.drivers.Keys == w.db.drivers.Keys;
    DispatchKeepsKeys(cfg, item.sub, Stamp(state, item.sub.id, now)[item.sub.id], item.look, w0);
  }

  lemma VisitKeepsStep(cfg: Config, now: int, item: Item, state: Hints, w: World, tr: Trace, id: SubId,
                       base: seq<Option<string>>)
    requires InStep(tr, state, w, id, base)
    ensures var v := VisitItem(cfg, now, item, state, w);
            InStep(ObserveAll(tr, VisitLooks(now, item, state, id), cfg.idleSeconds), v.state, v.w, id, base)
  {
    var v := VisitItem(cfg, now, item, state, w);
    KnownStays(cfg, now, item, state, w, id);
    VisitFrame(cfg, now, item, state, w, id);
    if item.sub.id == id && DueAt(state, item.sub, now) {
      var w0 := w.(db := ClearParks(w.db, item.cleared));
      DispatchKeepsStep(cfg, item.sub, Stamp(state, id, now)[id], item.look, w0, tr, base);
      if IdleReason(item.look).Some? {
        assert VisitLooks(now, item, state, id)[1..] == [];
      }
    } else {
      VisitLedger(cfg, now, item, state, w);
      IdleSaidGrows(w.db.runs, v.w.db.runs, id);
    }
  }

  lemma {:induction false} PassKeepsStep(cfg: Config, now: int, items: seq<Item>, state: Hints, w: World, tr: Trace,
                                         id: SubId,
                                         base: seq<Option<string>>)
    requires InStep(tr, state, w, id, base)
    ensures var p := PollFrom(cfg, now, items, state, w);
            InStep(ObserveAll(tr, PassLooks(cfg, now, items, state, w, id), cfg.idleSeconds), p.state, p.w, id, base)
    decreases |items|
  {
    if items != [] {
      var v, looks := VisitItem(cfg, now, items[0], state, w), VisitLooks(now, items[0], state, id);
      VisitKeepsStep(cfg, now, items[0], state, w, tr, id, base);
      if v.Stops() {
        assert looks + [] == looks;
      } else {
        PassKeepsStep(cfg, now, items[1..], v.state, v.w, ObserveAll(tr, looks, cfg.idleSeconds), id, base);
        ObserveAppend(tr, looks, PassLooks(cfg, now, items[1..], v.state, v.w, id), cfg.idleSeconds);
      }
    }
  }

  lemma EventKeepsStep(cfg: Config, sys: System, e: Event, tr: Trace, id: SubId, base: seq<Option<string>>)
    requires InStep(tr, sys.state, sys.w, id, base)
    ensures var next := Advance(cfg, sys, e);
            InStep(ObserveAll(tr, EventLooks(cfg, sys, e, id), cfg.idleSeconds), next.state, next.w, id, base)
  {
    match e {
      case PassEvent(now, Got(items)) => PassKeepsStep(cfg, now, items, sys.state, sys.w, tr, id, base);
      case PassEvent(_, _) =>
      case Restart => assert [Restarted][1..] == [];
      case OperatorsClear(_) =>
    }
  }

  lemma {:induction false} RunKeepsStep(cfg: Config, sys: System, events: seq<Event>, tr: Trace, id: SubId,
                                        base: seq<Option<string>>)
    requires InStep(tr, sys.state, sys.w, id, base)
    ensures var end := Run(cfg, sys, events);
            InStep(ObserveAll(tr, RunLooks(cfg, sys, events, id), cfg.idleSeconds), end.state, end.w, id, base)
    decreases |events|
  {
    if events != [] {
      var next, looks := Advance(cfg, sys, events[0]), EventLooks(cfg, sys, events[0], id);
      EventKeepsStep(cfg, sys, events[0], tr, id, base);
      RunKeepsStep(cfg, next, events[1..], ObserveAll(tr, looks, cfg.idleSeconds), id, base);
      ObserveAppend(tr, looks, RunLooks(cfg, next, events[1..], id), cfg.idleSeconds);
    }
  }

  // ----- what the ledger of a run says -----------------------------------------------------------

  /** What is remembered about `id` when a run starts, and nothing looked at yet. */
  function StartOf(sys: System, id: SubId): Trace {
    Trace(IdlePart(Lookup(sys.state, id)), [], 0, None)
  }

  /** The trace of `id` over a run that starts now. */
  function TraceOf(cfg: Config, sys: System, events: seq<Event>, id: SubId): Trace {
    ObserveAll(StartOf(sys, id), RunLooks(cfg, sys, events, id), cfg.idleSeconds)
  }

  /** Whatever else a run contains, the idle rows of `id` it adds to the ledger are the rows of its trace that
      arrived. */
  lemma RunTellsIdle(cfg: Config, sys: System, events: seq<Event>, id: SubId)
    requires id in sys.w.db.drivers
    ensures IdleSaid(Run(cfg, sys, events).w.db.runs, id)
            == IdleSaid(sys.w.db.runs, id) + Reasons(Arrived(TraceOf(cfg, sys, events, id).rows))
  {
    var tr, base := StartOf(sys, id), IdleSaid(sys.w.db.runs, id);
    assert base + Reasons(Arrived(tr.rows)) == base;
    RunKeepsStep(cfg, sys, events, tr, id, base);
  }

  /** What a ledger says last, when `rows` arrive on top of `before`. */
  lemma LastSaid(before: seq<Option<string>>, rows: seq<IdleRow>, latest: Option<Option<string>>)
    ensures var said := before + Reasons(rows);
            said != [] && latest == Some(said[|said| - 1]) <==>
              if rows != [] then latest == Some(rows[|rows| - 1].reason)
              else before != [] && latest == Some(before[|before| - 1])
  {
    if rows == [] {
      assert before + Reasons(rows) == before;
    }
  }

  /** The newest idle row in the ledger after a run tells the latest idle look's reason exactly when the
      newest look that got through had that reason, or none got through and the row from before the run
      says it. */
  lemma LedgerIsRightIff(cfg: Config, sys: System, events: seq<Event>, id: SubId)
    requires id in sys.w.db.drivers
    ensures var before, said := IdleSaid(sys.w.db.runs, id), IdleSaid(Run(cfg, sys, events).w.db.runs, id);
            var start, looks := StartOf(sys, id), RunLooks(cfg, sys, events, id);
            var i := NewestThrough(start, looks, cfg.idleSeconds);
            said != [] && LatestReason(looks) == Some(said[|said| - 1]) <==>
              if i >= 0 then LatestReason(looks) == Some(looks[i].reason)
              else before != [] && LatestReason(looks) == Some(before[|before| - 1])
  {
    var start, looks := StartOf(sys, id), RunLooks(cfg, sys, events, id);
    RunTellsIdle(cfg, sys, events, id);
    TraceByLooks(start, looks, cfg.idleSeconds);
    LastSaid(IdleSaid(sys.w.db.runs, id), Arrived(TraceOf(cfg, sys, events, id).rows), LatestReason(looks));
  }

  /** While a condition stands, the run writes its reason into the ledger if and only if the first look of
      some process life gets its row through (of the life the run starts in, only if its memory does not
      hold the reason yet). */
  lemma StandingReasonIsSaidIff(cfg: Config, sys: System, events: seq<Event>, id: SubId, reason: string)
    requires id in sys.w.db.drivers && Stands(RunLooks(cfg, sys, events, id), reason)
    ensures var start, looks := StartOf(sys, id), RunLooks(cfg, sys, events, id);
            IdleSaid(Run(cfg, sys, events).w.db.runs, id) != IdleSaid(sys.w.db.runs, id) <==>
              SomebodySpeaks(start, reason, looks)
  {
    var start, looks := StartOf(sys, id), RunLooks(cfg, sys, events, id);
    RunTellsIdle(cfg, sys, events, id);
    StandingIsSaidIff(start, reason, looks, cfg.idleSeconds);
    NothingArrivedIff(TraceOf(cfg, sys, events, id).rows);
  }

  /** Where two neighbouring idle rows a run adds to the ledger state the same reason, the process restarted
      between them, or the row that said otherwise was lost. */
  lemma RepeatedReasonIsExplained(cfg: Config, sys: System, events: seq<Event>, id: SubId, m: nat)
    requires id in sys.w.db.drivers
    requires var before, said := |IdleSaid(sys.w.db.runs, id)|, IdleSaid(Run(cfg, sys, events).w.db.runs, id);
             before + m + 1 < |said| && said[before + m].Some? && said[before + m] == said[before + m + 1]
    ensures var rows, said := TraceOf(cfg, sys, events, id).rows, IdleSaid(Run(cfg, sys, events).w.db.runs, id);
            && m + 1 < |Arrived(rows)|
            && var j, k := ArrivedAt(rows, m), ArrivedAt(rows, m + 1);
            && rows[j].reason == rows[k].reason == said[|IdleSaid(sys.w.db.runs, id)| + m]
            && (|| rows[j].life < rows[k].life
                || (j + 1 < k && !rows[j + 1].arrived && rows[j + 1].reason != rows[j].reason))
  {
    var rows := TraceOf(cfg, sys, events, id).rows;
    RunTellsIdle(cfg, sys, events, id);
    RowsKeepTheirDistance(StartOf(sys, id), RunLooks(cfg, sys, events, id), cfg.idleSeconds);
    RepeatIsExplained(rows, cfg.idleSeconds, m);
  }
}

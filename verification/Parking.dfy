/**
 What a look leaves behind, said without the functions that compute it, and how a subscription that gets
 nowhere comes to be parked (flow_runner/dispatcher.py:77-86, 136-331, 346-385).
 */
module Parking {
  import opened Options
  import opened RecordLayer
  import opened Dispatching
  import opened Fairness
  import opened RunLedger
  import opened SpendBound

  // ----- when a look is due ----------------------------------------------------------------------

  /** Never while parked, else at once, else a cadence after the last poll; none or zero is five minutes. */
  lemma DueIff(sub: Subscription, st: SubscriptionState, now: int)
    ensures Due(sub, st, now) <==>
      !sub.parked &&
      match st.lastPolled
      case None => true
      case Some(last) =>
        now >= last + (if sub.cadence.Some? && sub.cadence.value != 0 then sub.cadence.value else 300)
  {
  }

  // ----- what moved ------------------------------------------------------------------------------

  /** New approval facts or todos were counted, both before and after the turn. */
  predicate MarkGrew(look: Look) {
    && look.marksBefore.Got? && look.marksAfter.Got?
    && (look.marksAfter.value.0 > look.marksBefore.value.0 || look.marksAfter.value.1 > look.marksBefore.value.1)
  }

  /** Something left the queue, as counted again, or as claimed when it could not be. */
  predicate QueueMoved(look: Look)
    requires look.queue.Got? && look.agent.Got?
  {
    match look.recount
    case Got(remaining) => remaining < look.queue.value
    case _ =>
      var result := look.agent.value;
      && result.itemsAdvanced.Some? && result.itemsAdvanced.value > 0
      && (result.ok || "queue_remaining" in result.detailKeys)
  }

  /** The turn gets as far as reporting, and its report reaches the server. */
  predicate Tells(look: Look) {
    && FindsWork(look) && look.open.Delivered? && !look.marksBefore.Crash? && look.agent.Got?
    && !look.recount.Crash? && !look.marksAfter.Crash? && look.report.Arrives()
  }

  predicate Unparked(sub: Subscription, w: World) {
    sub.id in w.db.drivers && !w.db.drivers[sub.id].parked
  }

  /** The counter after a look that does not count as progress. */
  function Counted(cfg: Config, sub: Subscription): Driver {
    Driver(sub.unmoved + 1, sub.unmoved + 1 >= cfg.maxUnmoved)
  }

  lemma TurnReports(cfg: Config, sub: Subscription, st: SubscriptionState, run: nat, look: Look, w: World)
    requires Tells(look) && Unparked(sub, w)
    ensures AgentTurn(cfg, sub, st, look.queue.value, run, look, w).w.db.drivers
            == w.db.drivers[sub.id := if MarkGrew(look) || QueueMoved(look) then Driver(0, 0 >= cfg.maxUnmoved)
                                      else Counted(cfg, sub)]
  {
  }

  /** A turn resets the counter exactly when a mark grew or something left the queue; otherwise it is one
      higher, and the subscription is parked exactly at the limit. No other driver state moves. */
  lemma TurnCounts(cfg: Config, sub: Subscription, st: SubscriptionState, look: Look, w: World)
    requires Tells(look) && Unparked(sub, w)
    ensures var step := Dispatch(cfg, sub, st, look, w);
            && step.w.calls == w.calls + [sub.id] && step.state == st
            && step.w.db.drivers
               == w.db.drivers[sub.id := if MarkGrew(look) || QueueMoved(look) then Driver(0, 0 >= cfg.maxUnmoved)
                                         else Counted(cfg, sub)]
  {
    var (db1, openReply) := Send(look.open, w.db, HandleOpen(w.db, WorkRow(sub, look.queue.value)));
    TurnReports(cfg, sub, st, openReply.value, look, w.(db := db1));
  }

  /** What left the queue while the agent ran, or what the adapter says when it could not be counted. */
  function AdvancedBy(look: Look): Option<int>
    requires look.queue.Got? && look.agent.Got?
  {
    match look.recount
    case Got(remaining) => Some(if remaining > look.queue.value then 0 else look.queue.value - remaining)
    case _ => look.agent.value.itemsAdvanced
  }

  lemma TurnCloses(cfg: Config, sub: Subscription, st: SubscriptionState, run: nat, look: Look, w: World)
    requires Tells(look) && !Crashes(look.report) && look.close.Arrives()
    requires run < |w.db.runs| && w.db.runs[run].status == Running
    ensures var closed := w.db.runs[run].(status := if look.agent.value.ok then Succeeded else Failed,
                                          advanced := AdvancedBy(look));
            AgentTurn(cfg, sub, st, look.queue.value, run, look, w).w.db.runs == w.db.runs[run := closed]
  {
  }

  /** The ledger row of such a turn: what the queue was, what left it, and the adapter's verdict. */
  lemma TurnRow(cfg: Config, sub: Subscription, st: SubscriptionState, look: Look, w: World)
    requires Tells(look) && sub.id in w.db.drivers && !Crashes(look.report) && look.close.Arrives()
    ensures Dispatch(cfg, sub, st, look, w).w.db.runs
            == w.db.runs + [RunRow(sub.id, if look.agent.value.ok then Succeeded else Failed, Some(look.queue.value),
                                   None, AdvancedBy(look))]
  {
    var (db1, openReply) := Send(look.open, w.db, HandleOpen(w.db, WorkRow(sub, look.queue.value)));
    TurnCloses(cfg, sub, st, openReply.value, look, w.(db := db1));
  }

  // ----- looks without an agent ------------------------------------------------------------------

  lemma FailedCheckReports(cfg: Config, sub: Subscription, st: SubscriptionState, look: Look, w: World)
    requires look.report.Arrives() && Unparked(sub, w)
    ensures var step := FailedCheck(cfg, sub, st, look, w);
            step.w.db.drivers == w.db.drivers[sub.id := Counted(cfg, sub)] && step.w.calls == w.calls
  {
  }

  /** A failed check counts toward parking like a turn that moved nothing, and calls nobody. */
  lemma FailedCheckCounts(cfg: Config, sub: Subscription, st: SubscriptionState, look: Look, w: World)
    requires ChecksFail(look) && look.report.Arrives() && Unparked(sub, w)
    ensures var step := Dispatch(cfg, sub, st, look, w);
            && step.w.db.drivers == w.db.drivers[sub.id := Counted(cfg, sub)]
            && step.w.calls == w.calls && step.state == st
  {
    FailedCheckReports(cfg, sub, st, look, w);
  }

  /** With every request answered it leaves one failed row that counts nothing. */
  lemma FailedCheckRow(cfg: Config, sub: Subscription, st: SubscriptionState, look: Look, w: World)
    requires ChecksFail(look) && sub.id in w.db.drivers && !Crashes(look.report)
    requires look.open.Delivered? && look.close.Arrives()
    ensures Dispatch(cfg, sub, st, look, w).w.db.runs == w.db.runs + [RunRow(sub.id, Failed, None, None, None)]
  {
    var db1 := NoteProgress(cfg, sub, false, look.report, w.db).0;
    FailedRowIs(sub, st, look, w.(db := db1));
  }

  lemma FailedRowIs(sub: Subscription, st: SubscriptionState, look: Look, w: World)
    requires sub.id in w.db.drivers && look.open.Delivered? && look.close.Arrives()
    ensures FailedRow(sub, st, look, w).w.db.runs == w.db.runs + [RunRow(sub.id, Failed, None, None, None)]
  {
  }

  /** A look that finds nothing leaves the driver states and the agent alone, and its row, if it writes one
      and closes it, is a skipped one. */
  lemma IdleRowIs(cfg: Config, sub: Subscription, st: SubscriptionState, look: Look, w: World)
    requires IdleReason(look).Some? && sub.id in w.db.drivers
    ensures var step := Dispatch(cfg, sub, st, look, w);
            && step.w.db.drivers == w.db.drivers && step.w.calls == w.calls
            && (look.open.Delivered? && look.close.Arrives() ==>
                  step.w.db.runs
                  == w.db.runs + (if IdleIsNews(st, IdleReason(look).value, look.idleNow, cfg.idleSeconds)
                                  then [RunRow(sub.id, Skipped, Some(0), IdleReason(look).value, Some(0))] else []))
  {
  }

  // ----- what stops a pass -----------------------------------------------------------------------

  /** A pass that returns without having called the agent got to everything that was due. */
  lemma {:induction false} CheapLooksDoNotStop(cfg: Config, now: int, items: seq<Item>, state: Hints, w: World, k: nat)
    requires k < |items| && DueAt(state, items[k].sub, now)
    requires PollFrom(cfg, now, items, state, w).rows.Some? && PollFrom(cfg, now, items, state, w).w.calls == w.calls
    ensures items[k].sub.id in PollFrom(cfg, now, items, state, w).polled
    decreases |items|
  {
    var v := VisitItem(cfg, now, items[0], state, w);
    VisitFrame(cfg, now, items[0], state, w, items[k].sub.id);
    VisitLedger(cfg, now, items[0], state, w);
    if k > 0 && items[k].sub.id !in v.polled {
      assert items[1..][k - 1] == items[k];
      if !v.Stops() {
        CallsGrow(cfg, now, items[1..], v.state, v.w);
        CheapLooksDoNotStop(cfg, now, items[1..], v.state, v.w, k - 1);
      }
    }
  }

  lemma CallsGrow(cfg: Config, now: int, items: seq<Item>, state: Hints, w: World)
    ensures w.calls <= PollFrom(cfg, now, items, state, w).w.calls
  {
    PassCalls(cfg, now, items, state, w);
  }

  /** A listing that answers an error ends the pass quietly, one that breaks raises; either way nothing else
      has happened. */
  lemma UnreadableListing(cfg: Config, now: int, listing: Reply<seq<Item>>, state: Hints, w: World)
    requires !listing.Got?
    ensures var p := Poll(cfg, now, listing, state, w);
            p.state == state && p.w == w && p.polled == [] && p.rows == if listing.Crash? then None else Some([])
  {
  }

  // ----- a subscription that gets nowhere --------------------------------------------------------

  /** A look that counts against its subscription, and whose report gets through. */
  predicate Unhelpful(look: Look) {
    (ChecksFail(look) && look.report.Arrives()) || (Tells(look) && !MarkGrew(look) && !QueueMoved(look))
  }

  lemma UnhelpfulCounts(cfg: Config, sub: Subscription, st: SubscriptionState, look: Look, w: World)
    requires Unhelpful(look) && Unparked(sub, w)
    ensures Dispatch(cfg, sub, st, look, w).w.db.drivers == w.db.drivers[sub.id := Counted(cfg, sub)]
  {
    if ChecksFail(look) {
      FailedCheckCounts(cfg, sub, st, look, w);
    } else {
      TurnCounts(cfg, sub, st, look, w);
    }
  }

  lemma FailedCheckElsewhere(cfg: Config, sub: Subscription, st: SubscriptionState, look: Look, w: World, id: SubId)
    requires id != sub.id && id in w.db.drivers
    ensures var after := FailedCheck(cfg, sub, st, look, w).w.db.drivers; id in after && after[id] == w.db.drivers[id]
  {
  }

  lemma TurnElsewhere(cfg: Config, sub: Subscription, st: SubscriptionState, queue: nat, run: nat, look: Look, w: World,
                      id: SubId)
    requires id != sub.id && id in w.db.drivers
    ensures var after := AgentTurn(cfg, sub, st, queue, run, look, w).w.db.drivers;
            id in after && after[id] == w.db.drivers[id]
  {
  }

  /** Looking at one subscription moves nobody else's driver state. */
  lemma DispatchElsewhere(cfg: Config, sub: Subscription, st: SubscriptionState, look: Look, w: World, id: SubId)
    requires id != sub.id && id in w.db.drivers
    ensures var after := Dispatch(cfg, sub, st, look, w).w.db.drivers; id in after && after[id] == w.db.drivers[id]
  {
    if ChecksFail(look) {
      FailedCheckElsewhere(cfg, sub, st, look, w, id);
    } else if FindsWork(look) {
      var (db1, openReply) := Send(look.open, w.db, HandleOpen(w.db, WorkRow(sub, look.queue.value)));
      if openReply.Got? {
        TurnElsewhere(cfg, sub, st, look.queue.value, openReply.value, look, w.(db := db1), id);
      }
    }
  }

  /** How many looks it takes from a counter at u. */
  function Patience(cfg: Config, u: nat): nat {
    if cfg.maxUnmoved - u < 1 then 1 else cfg.maxUnmoved - u
  }

  /** The driver state after n such looks. */
  predicate After(cfg: Config, u: nat, n: nat, d: Driver) {
    n <= Patience(cfg, u) && d == Driver(u + n, n == Patience(cfg, u))
  }

  function Occurs(ids: seq<SubId>, id: SubId): nat {
    if ids == [] then 0 else (if ids[0] == id then 1 else 0) + Occurs(ids[1..], id)
  }

  lemma {:induction false} OccursAppend(a: seq<SubId>, b: seq<SubId>, id: SubId)
    ensures Occurs(a + b, id) == Occurs(a, id) + Occurs(b, id)
  {
    if a == [] {
      assert a + b == b;
    } else {
      assert (a + b)[0] == a[0] && (a + b)[1..] == a[1..] + b;
      OccursAppend(a[1..], b, id);
    }
  }

  lemma VisitCounts(cfg: Config, now: int, item: Item, state: Hints, w: World, id: SubId, u: nat, n: nat)
    requires id in w.db.drivers && After(cfg, u, n, w.db.drivers[id])
    requires item.sub.id == id ==> Unhelpful(item.look)
    requires item.sub.id in w.db.drivers
    requires !item.sub.parked ==> w.db.drivers[item.sub.id] == Driver(item.sub.unmoved, false)
    requires NotLifted(VisitItem(cfg, now, item, state, w).facts, id)
    ensures var v := VisitItem(cfg, now, item, state, w);
            id in v.w.db.drivers && After(cfg, u, n + Occurs(v.polled, id), v.w.db.drivers[id])
  {
    var w0 := w.(db := ClearParks(w.db, item.cleared));
    assert VisitItem(cfg, now, item, state, w).facts[0] == Lifted(w.db, item.cleared);
    assert w0.db.drivers[id] == w.db.drivers[id];
    if DueAt(state, item.sub, now) {
      var st := Stamp(state, item.sub.id, now)[item.sub.id];
      assert w0.db.drivers[item.sub.id] == w.db.drivers[item.sub.id];
      if item.sub.id == id {
        UnhelpfulCounts(cfg, item.sub, st, item.look, w0);
      } else {
        DispatchElsewhere(cfg, item.sub, st, item.look, w0, id);
      }
    }
  }

  lemma {:induction false} PassCounts(cfg: Config, now: int, items: seq<Item>, state: Hints, w: World, id: SubId,
                                      u: nat, n: nat)
    requires ReadFrom(items, w.db) && id in w.db.drivers && After(cfg, u, n, w.db.drivers[id])
    requires forall i :: 0 <= i < |items| && items[i].sub.id == id ==> Unhelpful(items[i].look)
    requires NotLifted(PollFrom(cfg, now, items, state, w).facts, id)
    ensures var p := PollFrom(cfg, now, items, state, w);
            id in p.w.db.drivers && After(cfg, u, n + Occurs(p.polled, id), p.w.db.drivers[id])
    decreases |items|
  {
    if items != [] {
      var v, p := VisitItem(cfg, now, items[0], state, w), PollFrom(cfg, now, items, state, w);
      assert p.facts[..|v.facts|] == v.facts;
      VisitCounts(cfg, now, items[0], state, w, id, u, n);
      if !v.Stops() {
        StillReadFrom(cfg, now, items, state, w);
        var rest := PollFrom(cfg, now, items[1..], v.state, v.w);
        assert p.facts[|v.facts|..] == rest.facts;
        PassCounts(cfg, now, items[1..], v.state, v.w, id, u, n + Occurs(v.polled, id));
        OccursAppend(v.polled, rest.polled, id);
      }
    }
  }

  /** How often the passes of a run get to `id`. */
  function Visits(cfg: Config, sys: System, events: seq<Event>, id: SubId): nat
    decreases |events|
  {
    if events == [] then 0
    else
      (match events[0]
       case PassEvent(now, listing) => Occurs(Poll(cfg, now, listing, sys.state, sys.w).polled, id)
       case _ => 0)
      + Visits(cfg, Advance(cfg, sys, events[0]), events[1..], id)
  }

  /** Every look the passes might take at `id` counts against it. */
  predicate GetsNowhere(events: seq<Event>, id: SubId) {
    forall e, i :: 0 <= e < |events| && events[e].PassEvent? && events[e].listing.Got?
                   && 0 <= i < |events[e].listing.value| && events[e].listing.value[i].sub.id == id ==>
      Unhelpful(events[e].listing.value[i].look)
  }

  lemma EventCounts(cfg: Config, sys: System, e: Event, id: SubId, u: nat, n: nat)
    requires e.PassEvent? && e.listing.Got? ==> ReadFrom(e.listing.value, sys.w.db)
    requires GetsNowhere([e], id) && id in sys.w.db.drivers && After(cfg, u, n, sys.w.db.drivers[id])
    requires NotLifted(Advance(cfg, sys, e).facts, id)
    ensures var next := Advance(cfg, sys, e);
            id in next.w.db.drivers && After(cfg, u, n + Visits(cfg, sys, [e], id), next.w.db.drivers[id])
  {
    var next := Advance(cfg, sys, e);
    assert [e][1..] == [] && Visits(cfg, next, [], id) == 0;
    match e {
      case PassEvent(now, listing) =>
        if listing.Got? {
          assert next.facts[|sys.facts|..] == PollFrom(cfg, now, listing.value, sys.state, sys.w).facts;
          assert forall i :: 0 <= i < |listing.value| && listing.value[i].sub.id == id ==>
            Unhelpful([e][0].listing.value[i].look);
          PassCounts(cfg, now, listing.value, sys.state, sys.w, id, u, n);
        }
      case Restart =>
      case OperatorsClear(ids) =>
        assert next.facts[|sys.facts|] == Lifted(sys.w.db, ids);
    }
  }

  /** A subscription whose checks keep failing, or whose turns move nothing, is parked by exactly the look
      that brings it to the limit, whatever else happens and however often the process restarts; it is
      never looked at again until somebody lifts the park. */
  lemma {:induction false} NowhereIsParked(cfg: Config, sys: System, events: seq<Event>, id: SubId, u: nat, n: nat)
    requires HonestListings(cfg, sys, events) && GetsNowhere(events, id)
    requires id in sys.w.db.drivers && After(cfg, u, n, sys.w.db.drivers[id])
    requires NotLifted(Run(cfg, sys, events).facts, id)
    ensures var end, visits := Run(cfg, sys, events), n + Visits(cfg, sys, events, id);
            && id in end.w.db.drivers && visits <= Patience(cfg, u)
            && end.w.db.drivers[id] == Driver(u + visits, visits == Patience(cfg, u))
    decreases |events|
  {
    if events != [] {
      var next := Advance(cfg, sys, events[0]);
      FactsGrow(cfg, next, events[1..]);
      assert NotLifted(next.facts, id);
      assert GetsNowhere([events[0]], id);
      EventCounts(cfg, sys, events[0], id, u, n);
      var more := Visits(cfg, sys, [events[0]], id);
      assert [events[0]][1..] == [] && Visits(cfg, next, [], id) == 0;
      NowhereIsParked(cfg, next, events[1..], id, u, n + more);
    }
  }
}

/**
 How many agent turns a queue that will not drain can cost (flow_runner/dispatcher.py:77-81, 346-385),
 over every interleaving of passes, failed calls, crashes, restarts and operators lifting parks.
 */
module SpendBound {
  import opened Options
  import opened RecordLayer
  import opened Dispatching

  /** One thing that happens to a runner serving one tenant. A crash of the process in the middle of a
      pass is a pass that raises there, followed by a restart. */
  datatype Event = PassEvent(now: int, listing: Reply<seq<Item>>) | Restart | OperatorsClear(ids: set<SubId>)

  datatype System = System(state: Hints, w: World, facts: seq<Fact>)

  function Advance(cfg: Config, sys: System, e: Event): System {
    match e
    case PassEvent(now, listing) =>
      var p := Poll(cfg, now, listing, sys.state, sys.w);
      System(p.state, p.w, sys.facts + p.facts)
    case Restart => sys.(state := map[])
    case OperatorsClear(ids) =>
      System(sys.state, sys.w.(db := ClearParks(sys.w.db, ids)), sys.facts + [Lifted(sys.w.db, ids)])
  }

  function Run(cfg: Config, sys: System, events: seq<Event>): System
    decreases |events|
  {
    if events == [] then sys else Run(cfg, Advance(cfg, sys, events[0]), events[1..])
  }

  /** Every listing of the run was read from the records as they were then. */
  ghost predicate HonestListings(cfg: Config, sys: System, events: seq<Event>)
    decreases |events|
  {
    events == [] ||
    ((events[0].PassEvent? && events[0].listing.Got? ==> ReadFrom(events[0].listing.value, sys.w.db))
     && HonestListings(cfg, Advance(cfg, sys, events[0]), events[1..]))
  }

  // ----- counting since the last reset -----------------------------------------------------------

  datatype Tally = Tally(turns: nat, unrecorded: nat)

  const ZERO := Tally(0, 0)

  function Tick(t: Tally, f: Fact, id: SubId): Tally {
    match f
    case Turn(x) => if x == id then t.(turns := t.turns + 1) else t
    case Unrecorded(x) => if x == id then t.(unrecorded := t.unrecorded + 1) else t
    case Recorded(_) => t
    case Reset(x) => if x == id then ZERO else t
    case Cleared(ids) => if id in ids then ZERO else t
  }

  /** Agent turns on `id`, and those whose driver state never arrived, since the last reset. */
  function Count(t: Tally, facts: seq<Fact>, id: SubId): Tally
    decreases |facts|
  {
    if facts == [] then t else Count(Tick(t, facts[0], id), facts[1..], id)
  }

  lemma {:induction false} CountAppend(t: Tally, a: seq<Fact>, b: seq<Fact>, id: SubId)
    ensures Count(t, a + b, id) == Count(Count(t, a, id), b, id)
    decreases |a|
  {
    if a == [] {
      assert a + b == b;
    } else {
      assert (a + b)[1..] == a[1..] + b;
      CountAppend(Tick(t, a[0], id), a[1..], b, id);
    }
  }

  lemma CountTwo(t: Tally, f: Fact, g: Fact, id: SubId)
    ensures Count(t, [f, g], id) == Tick(Tick(t, f, id), g, id)
  {
    assert [f, g] == [f] + [g];
    CountAppend(t, [f], [g], id);
  }

  // ----- the invariant ---------------------------------------------------------------------------

  function Limit(cfg: Config): nat {
    if cfg.maxUnmoved < 1 then 1 else cfg.maxUnmoved
  }

  ghost predicate Bounded(cfg: Config, d: Driver, t: Tally) {
    && t.turns <= t.unrecorded + d.unmoved
    && t.turns <= t.unrecorded + Limit(cfg)
    && (d.parked || d.unmoved < cfg.maxUnmoved || t.turns <= t.unrecorded)
  }

  lemma ClearKeeps(cfg: Config, db: Records, ids: set<SubId>, id: SubId, t: Tally)
    requires id in db.drivers && Bounded(cfg, db.drivers[id], t)
    ensures Bounded(cfg, ClearParks(db, ids).drivers[id], Count(t, [Lifted(db, ids)], id))
  {
  }

  lemma FailedCheckKeeps(cfg: Config, sub: Subscription, st: SubscriptionState, look: Look, w: World, id: SubId,
                         t: Tally)
    requires sub.id in w.db.drivers && w.db.drivers[sub.id] == Driver(sub.unmoved, false)
    requires id in w.db.drivers && Bounded(cfg, w.db.drivers[id], t)
    ensures var step := FailedCheck(cfg, sub, st, look, w);
            && step.w.db.drivers.Keys == w.db.drivers.Keys && step.facts == []
            && (id != sub.id ==> step.w.db.drivers[id] == w.db.drivers[id])
            && Bounded(cfg, step.w.db.drivers[id], t)
  {
  }

  lemma TurnKeeps(cfg: Config, sub: Subscription, st: SubscriptionState, queue: nat, run: nat, look: Look, w: World,
                  id: SubId, t: Tally)
    requires sub.id in w.db.drivers && w.db.drivers[sub.id] == Driver(sub.unmoved, false)
    requires id in w.db.drivers && Bounded(cfg, w.db.drivers[id], t)
    ensures var step := AgentTurn(cfg, sub, st, queue, run, look, w);
            && step.w.db.drivers.Keys == w.db.drivers.Keys
            && (id != sub.id ==> step.w.db.drivers[id] == w.db.drivers[id])
            && Bounded(cfg, step.w.db.drivers[id], Count(t, step.facts, id))
  {
    var facts := AgentTurn(cfg, sub, st, queue, run, look, w).facts;
    CountTwo(t, facts[0], facts[1], id);
  }

  /** One dispatch of an unparked subscription, from the driver state the runner read. */
  lemma DispatchKeeps(cfg: Config, sub: Subscription, st: SubscriptionState, look: Look, w: World, id: SubId, t: Tally)
    requires sub.id in w.db.drivers && w.db.drivers[sub.id] == Driver(sub.unmoved, false)
    requires id in w.db.drivers && Bounded(cfg, w.db.drivers[id], t)
    ensures var step := Dispatch(cfg, sub, st, look, w);
            && step.w.db.drivers.Keys == w.db.drivers.Keys
            && (id != sub.id ==> step.w.db.drivers[id] == w.db.drivers[id])
            && Bounded(cfg, step.w.db.drivers[id], Count(t, step.facts, id))
  {
    if ChecksFail(look) {
      FailedCheckKeeps(cfg, sub, st, look, w, id, t);
    } else if FindsWork(look) {
      var row := WorkRow(sub, look.queue.value);
      var (db1, openReply) := Send(look.open, w.db, HandleOpen(w.db, row));
      if openReply.Got? {
        TurnKeeps(cfg, sub, st, look.queue.value, openReply.value, look, w.(db := db1), id, t);
      }
    }
  }

  lemma VisitKeeps(cfg: Config, now: int, item: Item, state: Hints, w: World, id: SubId, t: Tally)
    requires item.sub.id in w.db.drivers
    requires !item.sub.parked ==> w.db.drivers[item.sub.id] == Driver(item.sub.unmoved, false)
    requires id in w.db.drivers && Bounded(cfg, w.db.drivers[id], t)
    ensures var v := VisitItem(cfg, now, item, state, w);
            && v.w.db.drivers.Keys == w.db.drivers.Keys
            && (id != item.sub.id && !w.db.drivers[id].parked ==> v.w.db.drivers[id] == w.db.drivers[id])
            && Bounded(cfg, v.w.db.drivers[id], Count(t, v.facts, id))
  {
    var w0 := w.(db := ClearParks(w.db, item.cleared));
    var t0 := Count(t, [Lifted(w.db, item.cleared)], id);
    ClearKeeps(cfg, w.db, item.cleared, id, t);
    assert w0.db.drivers.Keys == w.db.drivers.Keys;
    if Due(item.sub, Lookup(state, item.sub.id), now) {
      var st := Stamp(state, item.sub.id, now)[item.sub.id];
      DispatchKeeps(cfg, item.sub, st, item.look, w0, id, t0);
      CountAppend(t, [Lifted(w.db, item.cleared)], Dispatch(cfg, item.sub, st, item.look, w0).facts, id);
    }
  }

  lemma {:induction false} PassKeeps(cfg: Config, now: int, items: seq<Item>, state: Hints, w: World, id: SubId,
                                     t: Tally)
    requires ReadFrom(items, w.db) && id in w.db.drivers && Bounded(cfg, w.db.drivers[id], t)
    ensures var p := PollFrom(cfg, now, items, state, w);
            p.w.db.drivers.Keys == w.db.drivers.Keys && Bounded(cfg, p.w.db.drivers[id], Count(t, p.facts, id))
    decreases |items|
  {
    if items != [] {
      var v := VisitItem(cfg, now, items[0], state, w);
      VisitKeeps(cfg, now, items[0], state, w, id, t);
      if !v.Stops() {
        StillReadFrom(cfg, now, items, state, w);
        PassKeeps(cfg, now, items[1..], v.state, v.w, id, Count(t, v.facts, id));
        CountAppend(t, v.facts, PollFrom(cfg, now, items[1..], v.state, v.w).facts, id);
      }
    }
  }

  /** What the runner read about the subscriptions still to come stays true while it works. */
  lemma StillReadFrom(cfg: Config, now: int, items: seq<Item>, state: Hints, w: World)
    requires items != [] && ReadFrom(items, w.db)
    ensures ReadFrom(items[1..], VisitItem(cfg, now, items[0], state, w).w.db)
  {
    forall i | 0 < i < |items|
      ensures items[i].sub.id in VisitItem(cfg, now, items[0], state, w).w.db.drivers
      ensures !items[i].sub.parked ==>
        VisitItem(cfg, now, items[0], state, w).w.db.drivers[items[i].sub.id] == Driver(items[i].sub.unmoved, false)
    {
      VisitKeeps(cfg, now, items[0], state, w, items[i].sub.id, ZERO);
    }
  }

  lemma EventKeeps(cfg: Config, sys: System, e: Event, id: SubId)
    requires id in sys.w.db.drivers && Bounded(cfg, sys.w.db.drivers[id], Count(ZERO, sys.facts, id))
    requires e.PassEvent? && e.listing.Got? ==> ReadFrom(e.listing.value, sys.w.db)
    ensures var next := Advance(cfg, sys, e);
            && next.w.db.drivers.Keys == sys.w.db.drivers.Keys
            && Bounded(cfg, next.w.db.drivers[id], Count(ZERO, next.facts, id))
  {
    var t := Count(ZERO, sys.facts, id);
    match e
    case PassEvent(now, listing) =>
      var p := Poll(cfg, now, listing, sys.state, sys.w);
      if listing.Got? {
        PassKeeps(cfg, now, listing.value, sys.state, sys.w, id, t);
      }
      CountAppend(ZERO, sys.facts, p.facts, id);
    case Restart =>
    case OperatorsClear(ids) =>
      ClearKeeps(cfg, sys.w.db, ids, id, t);
      CountAppend(ZERO, sys.facts, [Lifted(sys.w.db, ids)], id);
  }

  lemma {:induction false} RunKeeps(cfg: Config, sys: System, events: seq<Event>, id: SubId)
    requires id in sys.w.db.drivers && Bounded(cfg, sys.w.db.drivers[id], Count(ZERO, sys.facts, id))
    requires HonestListings(cfg, sys, events)
    ensures var end := Run(cfg, sys, events);
            && end.w.db.drivers.Keys == sys.w.db.drivers.Keys
            && Bounded(cfg, end.w.db.drivers[id], Count(ZERO, end.facts, id))
    decreases |events|
  {
    if events != [] {
      EventKeeps(cfg, sys, events[0], id);
      RunKeeps(cfg, Advance(cfg, sys, events[0]), events[1..], id);
    }
  }

  /** Since the last recorded progress or lifted park, a subscription has cost at most
      `max_unmoved_runs` turns beyond those whose driver state never reached the server; a limit below
      one still allows the turn that trips it. */
  lemma TurnsAreBounded(cfg: Config, sys: System, events: seq<Event>, id: SubId)
    requires sys.facts == [] && id in sys.w.db.drivers && HonestListings(cfg, sys, events)
    ensures var t := Count(ZERO, Run(cfg, sys, events).facts, id);
            t.turns <= Limit(cfg) + t.unrecorded
  {
    RunKeeps(cfg, sys, events, id);
  }

  // ----- what the facts stand for ----------------------------------------------------------------

  function TurnIds(facts: seq<Fact>): seq<SubId> {
    if facts == [] then []
    else TurnIds(facts[..|facts| - 1]) + if facts[|facts| - 1].Turn? then [facts[|facts| - 1].id] else []
  }

  lemma {:induction false} TurnIdsAppend(a: seq<Fact>, b: seq<Fact>)
    ensures TurnIds(a + b) == TurnIds(a) + TurnIds(b)
  {
    if b == [] {
      assert a + b == a;
    } else {
      assert (a + b)[..|a + b| - 1] == a + b[..|b| - 1];
      TurnIdsAppend(a, b[..|b| - 1]);
    }
  }

  /** The unmoved runs on record for `id`. */
  function UnmovedOf(w: World, id: SubId): Option<nat> {
    if id in w.db.drivers then Some(w.db.drivers[id].unmoved) else None
  }

  /** A recorded turn raised the counter the runner had read by one, a reset one cleared it, and an
      unrecorded one left the driver states as they were. */
  lemma FactsTellTheDriver(cfg: Config, sub: Subscription, st: SubscriptionState, queue: nat, run: nat, look: Look,
                           w: World)
    ensures var step := AgentTurn(cfg, sub, st, queue, run, look, w);
            && |step.facts| == 2 && step.facts[0] == Turn(sub.id) && step.w.calls == w.calls + [sub.id]
            && match step.facts[1]
               case Recorded(id) => id == sub.id && UnmovedOf(step.w, id) == Some(sub.unmoved + 1)
               case Reset(id) => id == sub.id && UnmovedOf(step.w, id) == Some(0)
               case Unrecorded(id) => id == sub.id && step.w.db.drivers == w.db.drivers
               case _ => false
  {
  }

  lemma TurnCalls(cfg: Config, sub: Subscription, st: SubscriptionState, queue: nat, run: nat, look: Look, w: World)
    ensures var step := AgentTurn(cfg, sub, st, queue, run, look, w); step.w.calls == w.calls + TurnIds(step.facts)
  {
    var facts := AgentTurn(cfg, sub, st, queue, run, look, w).facts;
    FactsTellTheDriver(cfg, sub, st, queue, run, look, w);
    assert facts == [facts[0]] + [facts[1]];
    TurnIdsAppend([facts[0]], [facts[1]]);
  }

  lemma FailedCheckCalls(cfg: Config, sub: Subscription, st: SubscriptionState, look: Look, w: World)
    ensures var step := FailedCheck(cfg, sub, st, look, w); step.w.calls == w.calls && step.facts == []
  {
  }

  lemma DispatchCalls(cfg: Config, sub: Subscription, st: SubscriptionState, look: Look, w: World)
    ensures var step := Dispatch(cfg, sub, st, look, w); step.w.calls == w.calls + TurnIds(step.facts)
  {
    if ChecksFail(look) {
      FailedCheckCalls(cfg, sub, st, look, w);
    } else if FindsWork(look) {
      var (db1, openReply) := Send(look.open, w.db, HandleOpen(w.db, WorkRow(sub, look.queue.value)));
      if openReply.Got? {
        TurnCalls(cfg, sub, st, look.queue.value, openReply.value, look, w.(db := db1));
      }
    }
  }

  lemma VisitCalls(cfg: Config, now: int, item: Item, state: Hints, w: World)
    ensures var v := VisitItem(cfg, now, item, state, w); v.w.calls == w.calls + TurnIds(v.facts)
  {
    var lifted := [Lifted(w.db, item.cleared)];
    assert TurnIds(lifted) == [];
    if Due(item.sub, Lookup(state, item.sub.id), now) {
      var st := Stamp(state, item.sub.id, now)[item.sub.id];
      var w0 := w.(db := ClearParks(w.db, item.cleared));
      DispatchCalls(cfg, item.sub, st, item.look, w0);
      TurnIdsAppend(lifted, Dispatch(cfg, item.sub, st, item.look, w0).facts);
    }
  }

  lemma JoinCalls(before: seq<SubId>, mid: seq<SubId>, after: seq<SubId>, a: seq<Fact>, b: seq<Fact>)
    requires mid == before + TurnIds(a) && after == mid + TurnIds(b)
    ensures after == before + TurnIds(a + b)
  {
    TurnIdsAppend(a, b);
  }

  lemma {:induction false} PassCalls(cfg: Config, now: int, items: seq<Item>, state: Hints, w: World)
    ensures var p := PollFrom(cfg, now, items, state, w); p.w.calls == w.calls + TurnIds(p.facts)
    decreases |items|
  {
    if items != [] {
      var v := VisitItem(cfg, now, items[0], state, w);
      VisitCalls(cfg, now, items[0], state, w);
      if !v.Stops() {
        var rest := PollFrom(cfg, now, items[1..], v.state, v.w);
        PassCalls(cfg, now, items[1..], v.state, v.w);
        JoinCalls(w.calls, v.w.calls, rest.w.calls, v.facts, rest.facts);
      }
    }
  }

  lemma EventCalls(cfg: Config, sys: System, e: Event, before: seq<SubId>)
    requires sys.w.calls == before + TurnIds(sys.facts)
    ensures var next := Advance(cfg, sys, e); next.w.calls == before + TurnIds(next.facts)
  {
    match e {
      case PassEvent(now, listing) =>
        var p := Poll(cfg, now, listing, sys.state, sys.w);
        if listing.Got? {
          PassCalls(cfg, now, listing.value, sys.state, sys.w);
        }
        JoinCalls(before, sys.w.calls, p.w.calls, sys.facts, p.facts);
      case Restart =>
      case OperatorsClear(ids) =>
        assert TurnIds([Lifted(sys.w.db, ids)]) == [];
        JoinCalls(before, sys.w.calls, sys.w.calls, sys.facts, [Lifted(sys.w.db, ids)]);
    }
  }

  /** The turns the bound counts are the calls the adapter got, in order. */
  lemma {:induction false} CallsAreTurns(cfg: Config, sys: System, events: seq<Event>, before: seq<SubId>)
    requires sys.w.calls == before + TurnIds(sys.facts)
    ensures var end := Run(cfg, sys, events); end.w.calls == before + TurnIds(end.facts)
    decreases |events|
  {
    if events != [] {
      EventCalls(cfg, sys, events[0], before);
      CallsAreTurns(cfg, Advance(cfg, sys, events[0]), events[1..], before);
    }
  }

  // ----- a park holds until somebody lifts it ----------------------------------------------------

  ghost predicate Lifts(f: Fact, id: SubId) {
    f.Cleared? && id in f.ids
  }

  /** No park on `id` was lifted and no turn on it was spent. */
  ghost predicate Quiet(facts: seq<Fact>, id: SubId) {
    forall k :: 0 <= k < |facts| ==> !Lifts(facts[k], id) && facts[k] != Turn(id)
  }

  ghost predicate NotLifted(facts: seq<Fact>, id: SubId) {
    forall k :: 0 <= k < |facts| ==> !Lifts(facts[k], id)
  }

  lemma ParkedVisit(cfg: Config, now: int, item: Item, state: Hints, w: World, id: SubId)
    requires item.sub.id in w.db.drivers && id in w.db.drivers && w.db.drivers[id].parked
    requires !item.sub.parked ==> w.db.drivers[item.sub.id] == Driver(item.sub.unmoved, false)
    requires NotLifted(VisitItem(cfg, now, item, state, w).facts, id)
    ensures var v := VisitItem(cfg, now, item, state, w);
            id in v.w.db.drivers && v.w.db.drivers[id].parked && Quiet(v.facts, id)
  {
    var lifted := Lifted(w.db, item.cleared);
    assert VisitItem(cfg, now, item, state, w).facts[0] == lifted;
    var w0 := w.(db := ClearParks(w.db, item.cleared));
    if Due(item.sub, Lookup(state, item.sub.id), now) {
      DispatchKeeps(cfg, item.sub, Stamp(state, item.sub.id, now)[item.sub.id], item.look, w0, id, ZERO);
    }
  }

  lemma {:induction false} ParkedPass(cfg: Config, now: int, items: seq<Item>, state: Hints, w: World, id: SubId)
    requires ReadFrom(items, w.db) && id in w.db.drivers && w.db.drivers[id].parked
    requires NotLifted(PollFrom(cfg, now, items, state, w).facts, id)
    ensures var p := PollFrom(cfg, now, items, state, w);
            id in p.w.db.drivers && p.w.db.drivers[id].parked && Quiet(p.facts, id)
    decreases |items|
  {
    if items != [] {
      var v := VisitItem(cfg, now, items[0], state, w);
      var p := PollFrom(cfg, now, items, state, w);
      assert p.facts[..|v.facts|] == v.facts;
      ParkedVisit(cfg, now, items[0], state, w, id);
      if !v.Stops() {
        StillReadFrom(cfg, now, items, state, w);
        var rest := PollFrom(cfg, now, items[1..], v.state, v.w);
        assert p.facts[|v.facts|..] == rest.facts;
        ParkedPass(cfg, now, items[1..], v.state, v.w, id);
      }
    }
  }

  lemma ParkedEvent(cfg: Config, sys: System, e: Event, id: SubId)
    requires e.PassEvent? && e.listing.Got? ==> ReadFrom(e.listing.value, sys.w.db)
    requires id in sys.w.db.drivers && sys.w.db.drivers[id].parked
    requires NotLifted(Advance(cfg, sys, e).facts, id) && Quiet(sys.facts, id)
    ensures var next := Advance(cfg, sys, e);
            id in next.w.db.drivers && next.w.db.drivers[id].parked && Quiet(next.facts, id)
  {
    var next := Advance(cfg, sys, e);
    match e {
      case PassEvent(now, listing) =>
        if listing.Got? {
          assert next.facts[|sys.facts|..] == PollFrom(cfg, now, listing.value, sys.state, sys.w).facts;
          ParkedPass(cfg, now, listing.value, sys.state, sys.w, id);
        }
      case Restart =>
      case OperatorsClear(ids) =>
        assert next.facts[|sys.facts|] == Lifted(sys.w.db, ids);
    }
  }

  /** While nobody lifts its park, a parked subscription costs nothing: no restart, crash, lost report
      or other traffic buys it another turn. */
  lemma {:induction false} ParkHolds(cfg: Config, sys: System, events: seq<Event>, id: SubId)
    requires HonestListings(cfg, sys, events) && id in sys.w.db.drivers && sys.w.db.drivers[id].parked
    requires NotLifted(Run(cfg, sys, events).facts, id) && Quiet(sys.facts, id)
    ensures var end := Run(cfg, sys, events);
            id in end.w.db.drivers && end.w.db.drivers[id].parked && Quiet(end.facts, id)
    decreases |events|
  {
    if events != [] {
      var next := Advance(cfg, sys, events[0]);
      FactsGrow(cfg, next, events[1..]);
      assert NotLifted(next.facts, id);
      ParkedEvent(cfg, sys, events[0], id);
      ParkHolds(cfg, next, events[1..], id);
    }
  }

  lemma {:induction false} FactsGrow(cfg: Config, sys: System, events: seq<Event>)
    ensures sys.facts <= Run(cfg, sys, events).facts
    decreases |events|
  {
    if events != [] {
      FactsGrow(cfg, Advance(cfg, sys, events[0]), events[1..]);
    }
  }

  // ----- the bound is reached --------------------------------------------------------------------

  /** A pass over one due subscription whose queue stands still; its report may go missing. */
  function StuckLook(now: int, lost: bool): Look {
    Look(Got(true), Got(1), now, Delivered, Got((0, 0)), Got(RunResult(true, None, {})), Got(1), Got((0, 0)),
         if lost then RequestLost(false) else Delivered, Delivered)
  }

  function StuckPass(sys: System, id: SubId, now: int, lost: bool): Event
    requires id in sys.w.db.drivers
  {
    var d := sys.w.db.drivers[id];
    PassEvent(now, Got([Item(Subscription(id, Some(300), d.unmoved, d.parked), StuckLook(now, lost), {})]))
  }

  lemma StuckVisit(cfg: Config, sub: Subscription, now: int, lost: bool, state: Hints, w: World)
    requires sub.id in w.db.drivers && w.db.drivers[sub.id] == Driver(sub.unmoved, false) && !sub.parked
    requires Due(sub, Lookup(state, sub.id), now)
    ensures var v := VisitItem(cfg, now, Item(sub, StuckLook(now, lost), {}), state, w);
            var unmoved := sub.unmoved + 1;
            && v.ending.Returned? && v.ending.spent && sub.id in v.w.db.drivers
            && Lookup(v.state, sub.id).lastPolled == Some(now)
            && v.w.db.drivers[sub.id]
               == (if lost then w.db.drivers[sub.id] else Driver(unmoved, unmoved >= cfg.maxUnmoved))
            && v.facts == [Cleared({})] + [Turn(sub.id), if lost then Unrecorded(sub.id) else Recorded(sub.id)]
  {
    assert ClearParks(w.db, {}).drivers == w.db.drivers;
    assert Lifted(w.db, {}) == Cleared({});
  }

  lemma StuckCount(facts: seq<Fact>, id: SubId, lost: bool)
    ensures var t := Count(ZERO, facts, id);
            Count(ZERO, facts + ([Cleared({})] + [Turn(id), if lost then Unrecorded(id) else Recorded(id)]), id)
            == Tally(t.turns + 1, t.unrecorded + if lost then 1 else 0)
  {
    var t := Count(ZERO, facts, id);
    var turn := [Turn(id), if lost then Unrecorded(id) else Recorded(id)];
    CountAppend(ZERO, facts, [Cleared({})] + turn, id);
    CountAppend(t, [Cleared({})], turn, id);
    CountTwo(t, turn[0], turn[1], id);
  }

  lemma StuckPassLeaves(cfg: Config, sys: System, id: SubId, now: int, lost: bool)
    requires id in sys.w.db.drivers && !sys.w.db.drivers[id].parked
    requires Due(Subscription(id, Some(300), 0, false), Lookup(sys.state, id), now)
    ensures var next, u := Advance(cfg, sys, StuckPass(sys, id, now, lost)), sys.w.db.drivers[id].unmoved;
            && id in next.w.db.drivers && Lookup(next.state, id).lastPolled == Some(now)
            && next.w.db.drivers[id] == (if lost then Driver(u, false) else Driver(u + 1, u + 1 >= cfg.maxUnmoved))
            && next.facts
               == sys.facts + ([Cleared({})] + [Turn(id), if lost then Unrecorded(id) else Recorded(id)])
  {
    var items := StuckPass(sys, id, now, lost).listing.value;
    OnlyVisit(cfg, now, items[0], sys.state, sys.w);
    StuckVisit(cfg, items[0].sub, now, lost, sys.state, sys.w);
  }

  lemma StuckPassSpends(cfg: Config, sys: System, id: SubId, now: int, lost: bool)
    requires id in sys.w.db.drivers && !sys.w.db.drivers[id].parked
    requires Due(Subscription(id, Some(300), 0, false), Lookup(sys.state, id), now)
    ensures var next, t := Advance(cfg, sys, StuckPass(sys, id, now, lost)), Count(ZERO, sys.facts, id);
            Count(ZERO, next.facts, id) == Tally(t.turns + 1, t.unrecorded + if lost then 1 else 0)
  {
    StuckPassLeaves(cfg, sys, id, now, lost);
    StuckCount(sys.facts, id, lost);
  }

  /** A pass over one item that ends it. */
  lemma OnlyVisit(cfg: Config, now: int, item: Item, state: Hints, w: World)
    ensures var v, p := VisitItem(cfg, now, item, state, w), PollFrom(cfg, now, [item], state, w);
            v.Stops() ==> p.state == v.state && p.w == v.w && p.facts == v.facts
  {
  }

  lemma StuckIsHonest(sys: System, id: SubId, now: int, lost: bool)
    requires id in sys.w.db.drivers
    ensures ReadFrom(StuckPass(sys, id, now, lost).listing.value, sys.w.db)
  {
  }

  lemma RunOneMore(cfg: Config, sys: System, e: Event, rest: seq<Event>)
    requires e.PassEvent? && e.listing.Got? ==> ReadFrom(e.listing.value, sys.w.db)
    requires HonestListings(cfg, Advance(cfg, sys, e), rest)
    ensures HonestListings(cfg, sys, [e] + rest) && Run(cfg, sys, [e] + rest) == Run(cfg, Advance(cfg, sys, e), rest)
  {
    assert ([e] + rest)[1..] == rest;
  }

  /** `TurnsAreBounded` cannot be improved: with any number of reports lost, a run exists that costs
      exactly the limit plus those. So a lost report does cost one extra run, and every one of them. */
  lemma BoundIsReached(cfg: Config, sys: System, id: SubId, lost: nat) returns (events: seq<Event>)
    requires sys.facts == [] && sys.state == map[] && id in sys.w.db.drivers && sys.w.db.drivers[id] == Driver(0, false)
    ensures HonestListings(cfg, sys, events)
    ensures Count(ZERO, Run(cfg, sys, events).facts, id) == Tally(Limit(cfg) + lost, lost)
  {
    events := StuckRun(cfg, sys, id, 0, lost, Limit(cfg));
  }

  lemma {:induction false} StuckRun(cfg: Config, sys: System, id: SubId, now: int, lost: nat, recorded: nat)
      returns (events: seq<Event>)
    requires id in sys.w.db.drivers && sys.w.db.drivers[id].unmoved + recorded <= Limit(cfg)
    requires lost + recorded > 0 ==> !sys.w.db.drivers[id].parked
    requires Due(Subscription(id, Some(300), 0, false), Lookup(sys.state, id), now)
    ensures HonestListings(cfg, sys, events)
    ensures var t := Count(ZERO, sys.facts, id);
            Count(ZERO, Run(cfg, sys, events).facts, id) == Tally(t.turns + lost + recorded, t.unrecorded + lost)
    decreases lost + recorded
  {
    if lost + recorded == 0 {
      events := [];
    } else {
      var e := StuckPass(sys, id, now, lost > 0);
      StuckPassLeaves(cfg, sys, id, now, lost > 0);
      StuckPassSpends(cfg, sys, id, now, lost > 0);
      StuckIsHonest(sys, id, now, lost > 0);
      var next := Advance(cfg, sys, e);
      var lost', recorded' := if lost > 0 then lost - 1 else 0, if lost > 0 then recorded else recorded - 1;
      var rest := StuckRun(cfg, next, id, now + 300, lost', recorded');
      RunOneMore(cfg, sys, e, rest);
      events := [e] + rest;
    }
  }
}

/**
 The process loop (flow_runner/__main__.py:155-192): in every pass one reconcile, then one turn for every
 tenant served. Each tenant's share of it is a run of the kind `SpendBound` is about, with a restart
 wherever its dispatcher was rebuilt.
 */
module FleetRuns {
  import opened Options
  import opened RecordLayer
  import opened Dispatching
  import opened Bootstrap
  import opened Minting
  import opened Fleet
  import SpendBound

  /** What the clock and each tenant's listing say in one pass. */
  type Turns = TenantId -> Turn

  /** What one pass adds to a tenant's share: nothing when it is not served; else a restart, unless it is
      served by the dispatcher from before, and a pass. */
  function PassShare(before: Slots, after: Slots, turns: Turns, t: TenantId): seq<SpendBound.Event> {
    if t !in after then []
    else
      (if Same(before, after, t) then [] else [SpendBound.Restart])
      + [SpendBound.PassEvent(turns(t).now, turns(t).listing)]
  }

  /** A tenant's share of the passes that left `marks`. */
  function Share(marks: seq<Slots>, turns: seq<Turns>, t: TenantId): seq<SpendBound.Event>
    requires 0 < |marks| <= |turns| + 1
  {
    if |marks| == 1 then []
    else
      var n := |marks| - 1;
      Share(marks[..n], turns, t) + PassShare(marks[n - 1], marks[n], turns[n - 1], t)
  }

  lemma {:induction false} RunAppend(cfg: Config, sys: SpendBound.System, a: seq<SpendBound.Event>,
                                     b: seq<SpendBound.Event>)
    ensures SpendBound.Run(cfg, sys, a + b) == SpendBound.Run(cfg, SpendBound.Run(cfg, sys, a), b)
    decreases |a|
  {
    if a == [] {
      assert a + b == b;
    } else {
      assert (a + b)[0] == a[0] && (a + b)[1..] == a[1..] + b;
      RunAppend(cfg, SpendBound.Advance(cfg, sys, a[0]), a[1..], b);
    }
  }

  /** A pass event is the tenant's pass on its own, whoever else the adapter has worked for. */
  lemma PassIsAlone(cfg: Config, sys: SpendBound.System, turn: Turn)
    ensures var next := SpendBound.Run(cfg, sys, [SpendBound.PassEvent(turn.now, turn.listing)]);
            var p := Alone(cfg, turn, (sys.state, sys.w.db));
            next.state == p.state && next.w.db == p.w.db
  {
    var e := SpendBound.PassEvent(turn.now, turn.listing);
    assert [e][1..] == [];
    assert SpendBound.Run(cfg, sys, [e]) == SpendBound.Run(cfg, SpendBound.Advance(cfg, sys, e), []);
    if turn.listing.Got? {
      PollIgnoresCalls(cfg, turn.now, turn.listing.value, sys.state, sys.w.db, sys.w.calls, []);
    }
  }

  /** What a pass does to a tenant is its share of the pass. */
  lemma ShareOfAPass(cfg: Config, sys: SpendBound.System, before: Slots, after: Slots, turns: Turns, t: TenantId)
    ensures var next := SpendBound.Run(cfg, sys, PassShare(before, after, turns, t));
            if t !in after then next == sys
            else
              var p := Alone(cfg, turns(t), (if Same(before, after, t) then sys.state else map[], sys.w.db));
              next.state == p.state && next.w.db == p.w.db
  {
    if t in after {
      var e := SpendBound.PassEvent(turns(t).now, turns(t).listing);
      if Same(before, after, t) {
        assert [] + [e] == [e];
        PassIsAlone(cfg, sys, turns(t));
      } else {
        assert ([SpendBound.Restart] + [e])[1..] == [e];
        PassIsAlone(cfg, sys.(state := map[]), turns(t));
      }
    }
  }

  // ----- one pass --------------------------------------------------------------------------------

  /** Where the tenants stand: each one's hints, empty while it is not served, and its records. */
  type Standings = map<TenantId, (Hints, Records)>

  ghost function StandingOf(r: Runner, stores: TenantId -> RecordStore, t: TenantId): (Hints, Records)
    reads r, r.dispatchers.Values, stores(t)
  {
    (if t in r.dispatchers then r.dispatchers[t].state else map[], stores(t).Db())
  }

  ghost function Now(r: Runner, stores: TenantId -> RecordStore, known: set<TenantId>): (now: Standings)
    reads r, r.dispatchers.Values, set t | t in known :: stores(t)
  {
    map t | t in known :: StandingOf(r, stores, t)
  }

  /** The runner has the dispatchers these slots say, none of them built after pass k. */
  predicate Fits(dispatchers: map<TenantId, Dispatcher>, slots: Slots, k: nat) {
    && dispatchers.Keys == slots.Keys
    && forall t :: t in slots ==> dispatchers[t].apiKey == slots[t].key && slots[t].built <= k
  }

  /** What a reconcile leaves of one tenant's standing: the hints are the same dispatcher's, or a new one's. */
  function Entered(before: Slots, after: Slots, t: TenantId, now: (Hints, Records)): (Hints, Records) {
    (if Same(before, after, t) then now.0 else map[], now.1)
  }

  function Polled(cfg: Config, turn: Turn, now: (Hints, Records)): (Hints, Records) {
    var p := Alone(cfg, turn, now);
    (p.state, p.w.db)
  }

  /** What a whole pass leaves of it. */
  function Passed(cfg: Config, before: Slots, after: Slots, turns: Turns, t: TenantId, now: (Hints, Records))
    : (Hints, Records)
  {
    var entered := Entered(before, after, t, now);
    if t in after then Polled(cfg, turns(t), entered) else entered
  }

  /** A dispatcher is kept exactly when its slot is. */
  lemma KeptIffSame(dispatchers: map<TenantId, Dispatcher>, slots: Slots, k: nat, keys: Keys, t: TenantId)
    requires Fits(dispatchers, slots, k)
    ensures Same(slots, Matched(slots, keys, k + 1), t) <==>
      t in keys && t in dispatchers && dispatchers[t].apiKey == keys[t]
  {
  }

  lemma StillFits(dispatchers: map<TenantId, Dispatcher>, slots: Slots, k: nat, keys: Keys,
                  next: map<TenantId, Dispatcher>)
    requires Fits(dispatchers, slots, k) && next.Keys == keys.Keys
    requires forall t :: t in keys ==> next[t].apiKey == keys[t]
    ensures Fits(next, Matched(slots, keys, k + 1), k + 1)
  {
  }

  lemma Exists(s: RecordStore)
    ensures allocated(s)
  {
  }

  /** The reconcile of a pass, as the tenants see it. */
  method EnterPass(r: Runner, pass: FleetPass, stores: TenantId -> RecordStore, ghost known: set<TenantId>,
                   ghost slots: Slots, ghost k: nat)
      returns (ghost slots': Slots, raised: bool)
    requires r.Valid() && r.OwnStores(stores, known) && NamesKnown(pass, known)
    requires Fits(r.dispatchers, slots, k)
    modifies r, r.boot
    ensures r.Valid() && r.OwnStores(stores, known)
    ensures var plan := PlanOf(r.bootstraps, r.boot.hasFile, old(r.boot.file), pass);
            && r.boot.file == FileAfter(r.bootstraps, r.boot.hasFile, old(r.boot.file), pass)
            && (raised <==> plan.Raise?) && slots' == Planned(slots, plan, k + 1)
    ensures Fits(r.dispatchers, slots', k + 1)
    ensures forall t :: t in r.dispatchers ==> r.dispatchers[t] in old(r.dispatchers.Values) || fresh(r.dispatchers[t])
    ensures forall t :: t in known ==>
      StandingOf(r, stores, t)
      == if raised then old(StandingOf(r, stores, t)) else Entered(slots, slots', t, old(StandingOf(r, stores, t)))
  {
    forall t | t in known
      ensures allocated(stores(t))
    {
      Exists(stores(t));
    }
    ghost var plan := PlanOf(r.bootstraps, r.boot.hasFile, r.boot.file, pass);
    ghost var dispatchers := r.dispatchers;
    raised := r.Reconcile(pass.credentials, pass.listing, pass.writing, stores, known);
    slots' := Planned(slots, plan, k + 1);
    if plan.Serve? {
      StillFits(dispatchers, slots, k, plan.keys, r.dispatchers);
    }
    forall t | t in known
      ensures StandingOf(r, stores, t)
              == if raised then old(StandingOf(r, stores, t))
                 else Entered(slots, slots', t, old(StandingOf(r, stores, t)))
    {
      assert stores(t).Db() == old(stores(t).Db());
      if plan.Serve? {
        KeptIffSame(dispatchers, slots, k, plan.keys, t);
      }
    }
  }

  /** One tenant's turn, as everybody else sees it. */
  method PollTenant(r: Runner, t: TenantId, turn: Turn, stores: TenantId -> RecordStore, ghost known: set<TenantId>)
    requires r.Valid() && r.OwnStores(stores, known) && t in r.dispatchers
    modifies r.dispatchers[t], stores(t), r.adapter
    ensures StandingOf(r, stores, t) == Polled(r.cfg, turn, old(StandingOf(r, stores, t)))
    ensures forall u :: u in known && u != t ==> StandingOf(r, stores, u) == old(StandingOf(r, stores, u))
  {
    forall u | u in known
      ensures allocated(stores(u))
    {
      Exists(stores(u));
    }
    var raised := PollOne(r.dispatchers[t], turn);
    forall u | u in known && u != t
      ensures StandingOf(r, stores, u) == old(StandingOf(r, stores, u))
    {
      assert stores(u) != stores(t) && stores(u).Db() == old(stores(u).Db());
      assert u in r.dispatchers ==> r.dispatchers[u].state == old(r.dispatchers[u].state);
    }
  }

  /** Every dispatcher has its turn, in whatever order the map yields them; a raised pass is its own
      tenant's affair. */
  method PollEverybody(r: Runner, turns: Turns, stores: TenantId -> RecordStore, ghost known: set<TenantId>)
    requires r.Valid() && r.OwnStores(stores, known)
    modifies r.dispatchers.Values, set t | t in known :: stores(t), r.adapter
    ensures forall t :: t in known ==>
      StandingOf(r, stores, t)
      == if t in r.dispatchers then Polled(r.cfg, turns(t), old(StandingOf(r, stores, t)))
         else old(StandingOf(r, stores, t))
  {
    var pending := r.dispatchers.Keys;
    while pending != {}
      invariant pending <= r.dispatchers.Keys
      invariant forall t :: t in known ==>
        StandingOf(r, stores, t)
        == if t in r.dispatchers && t !in pending then Polled(r.cfg, turns(t), old(StandingOf(r, stores, t)))
           else old(StandingOf(r, stores, t))
      decreases pending
    {
      var t :| t in pending;
      PollTenant(r, t, turns(t), stores, known);
      pending := pending - {t};
    }
  }

  // ----- the process loop ------------------------------------------------------------------------

  function Last<T>(s: seq<T>): T
    requires s != []
  {
    s[|s| - 1]
  }

  /** One pass: reconcile, then everybody's turn. When reconciling raises, nothing else has happened. */
  method ServePass(r: Runner, pass: FleetPass, turns: Turns, stores: TenantId -> RecordStore,
                   ghost known: set<TenantId>, ghost slots: Slots, ghost k: nat)
      returns (ghost slots': Slots, raised: bool)
    requires r.Valid() && r.OwnStores(stores, known) && NamesKnown(pass, known)
    requires Fits(r.dispatchers, slots, k)
    modifies r, r.boot, r.dispatchers.Values, set t | t in known :: stores(t), r.adapter
    ensures r.Valid() && r.OwnStores(stores, known)
    ensures var plan := PlanOf(r.bootstraps, r.boot.hasFile, old(r.boot.file), pass);
            && r.boot.file == FileAfter(r.bootstraps, r.boot.hasFile, old(r.boot.file), pass)
            && (raised <==> plan.Raise?) && slots' == Planned(slots, plan, k + 1)
    ensures Fits(r.dispatchers, slots', k + 1)
    ensures forall t :: t in r.dispatchers ==> r.dispatchers[t] in old(r.dispatchers.Values) || fresh(r.dispatchers[t])
    ensures forall t :: t in known ==>
      StandingOf(r, stores, t)
      == if raised then old(StandingOf(r, stores, t))
         else Passed(r.cfg, slots, slots', turns, t, old(StandingOf(r, stores, t)))
  {
    slots', raised := EnterPass(r, pass, stores, known, slots, k);
    if !raised {
      PollEverybody(r, turns, stores, known);
    }
  }

  // ----- any number of passes --------------------------------------------------------------------

  function SystemAt(start: (Hints, Records)): SpendBound.System {
    SpendBound.System(start.0, World(start.1, []), [])
  }

  /** Each tenant stands where its share of the passes so far leaves it; its hints only while it is served. */
  ghost predicate AllStand(cfg: Config, start: Standings, marks: seq<Slots>, turns: seq<Turns>, now: Standings) {
    && 0 < |marks| <= |turns| + 1 && now.Keys == start.Keys
    && forall t :: t in start ==>
         var end := SpendBound.Run(cfg, SystemAt(start[t]), Share(marks, turns, t));
         now[t].1 == end.w.db && (t in Last(marks) ==> now[t].0 == end.state)
  }

  lemma AllStandFirst(cfg: Config, start: Standings, slots: Slots, turns: seq<Turns>)
    ensures AllStand(cfg, start, [slots], turns, start)
  {
  }

  lemma AllStandNext(cfg: Config, start: Standings, marks: seq<Slots>, turns: seq<Turns>, now: Standings, after: Slots,
                     next: Standings)
    requires |marks| <= |turns| && AllStand(cfg, start, marks, turns, now) && next.Keys == now.Keys
    requires forall t :: t in now ==> next[t] == Passed(cfg, Last(marks), after, turns[|marks| - 1], t, now[t])
    ensures AllStand(cfg, start, marks + [after], turns, next)
  {
    var marks', turn := marks + [after], turns[|marks| - 1];
    forall t | t in start
      ensures var end := SpendBound.Run(cfg, SystemAt(start[t]), Share(marks', turns, t));
              next[t].1 == end.w.db && (t in after ==> next[t].0 == end.state)
    {
      var sys, share := SystemAt(start[t]), Share(marks, turns, t);
      assert marks'[..|marks|] == marks;
      RunAppend(cfg, sys, share, PassShare(Last(marks), after, turn, t));
      ShareOfAPass(cfg, SpendBound.Run(cfg, sys, share), Last(marks), after, turn, t);
    }
  }

  /** One pass of the loop, with everybody's share brought up to date. */
  method ServeStep(r: Runner, passes: seq<FleetPass>, stores: TenantId -> RecordStore, ghost known: set<TenantId>,
                   turns: seq<Turns>, k: nat, ghost start: Standings, ghost whole: seq<Slots>,
                   ghost marks: seq<Slots>)
      returns (ghost marks': seq<Slots>, raised: bool)
    requires r.Valid() && r.OwnStores(stores, known) && AllNamed(passes, known)
    requires k < |passes| == |turns|
    requires Underway(whole, marks, false, r.bootstraps, r.boot.hasFile, r.boot.file, passes, k)
    requires Fits(r.dispatchers, Last(marks), k) && AllStand(r.cfg, start, marks, turns, Now(r, stores, known))
    modifies r, r.boot, r.dispatchers.Values, set t | t in known :: stores(t), r.adapter
    ensures r.Valid() && r.OwnStores(stores, known)
    ensures marks' != [] && Underway(whole, marks', raised, r.bootstraps, r.boot.hasFile, r.boot.file, passes, k + 1)
    ensures Fits(r.dispatchers, Last(marks'), k + 1)
    ensures forall t :: t in r.dispatchers ==> r.dispatchers[t] in old(r.dispatchers.Values) || fresh(r.dispatchers[t])
    ensures AllStand(r.cfg, start, marks', turns, Now(r, stores, known))
  {
    ghost var now, slots := Now(r, stores, known), Last(marks);
    HalfwayOneMore(whole, marks, r.bootstraps, r.boot.hasFile, r.boot.file, passes, k);
    slots, raised := ServePass(r, passes[k], turns[k], stores, known, slots, k);
    marks' := marks;
    if raised {
      assert Now(r, stores, known) == now;
    } else {
      AllStandNext(r.cfg, start, marks, turns, now, slots, Now(r, stores, known));
      marks' := marks + [slots];
    }
  }

  /** The process: every tenant stands, after any number of passes, where its own share of them leaves it. */
  method ServeAll(r: Runner, passes: seq<FleetPass>, turns: seq<Turns>, stores: TenantId -> RecordStore,
                  ghost known: set<TenantId>)
      returns (ghost marks: seq<Slots>, raised: bool)
    requires r.Valid() && r.OwnStores(stores, known) && AllNamed(passes, known)
    requires |turns| == |passes|
    modifies r, r.boot, r.dispatchers.Values, set t | t in known :: stores(t), r.adapter
    ensures r.Valid() && r.OwnStores(stores, known)
    ensures marks == MarksOf(Present(old(r.dispatchers)), r.bootstraps, r.boot.hasFile, old(r.boot.file), passes, 1)
    ensures Fits(r.dispatchers, Last(marks), |passes|)
    ensures AllStand(r.cfg, old(Now(r, stores, known)), marks, turns, Now(r, stores, known))
  {
    raised := false;
    marks := [Present(r.dispatchers)];
    ghost var whole := MarksOf(marks[0], r.bootstraps, r.boot.hasFile, r.boot.file, passes, 1);
    ghost var start := Now(r, stores, known);
    AllStandFirst(r.cfg, start, marks[0], turns);
    assert passes[0..] == passes;
    var k := 0;
    while k < |passes| && !raised
      invariant 0 <= k <= |passes| && r.Valid() && r.OwnStores(stores, known)
      invariant marks != [] && Fits(r.dispatchers, Last(marks), k)
      invariant Underway(whole, marks, raised, r.bootstraps, r.boot.hasFile, r.boot.file, passes, k)
      invariant forall t :: t in r.dispatchers ==>
        r.dispatchers[t] in old(r.dispatchers.Values) || fresh(r.dispatchers[t])
      invariant AllStand(r.cfg, start, marks, turns, Now(r, stores, known))
    {
      marks, raised := ServeStep(r, passes, stores, known, turns, k, start, whole, marks);
      k := k + 1;
    }
    if !raised {
      HalfwayDone(whole, marks, r.bootstraps, r.boot.hasFile, r.boot.file, passes);
    }
  }

  lemma RunIsBounded(cfg: Config, start: (Hints, Records), events: seq<SpendBound.Event>, id: SubId)
    requires id in start.1.drivers && SpendBound.HonestListings(cfg, SystemAt(start), events)
    ensures var end := SpendBound.Run(cfg, SystemAt(start), events);
            var tally := SpendBound.Count(SpendBound.ZERO, end.facts, id);
            end.w.calls == SpendBound.TurnIds(end.facts) && tally.turns <= SpendBound.Limit(cfg) + tally.unrecorded
  {
    SpendBound.TurnsAreBounded(cfg, SystemAt(start), events, id);
    SpendBound.CallsAreTurns(cfg, SystemAt(start), events, []);
  }

  /** So the spending bound holds of every tenant of a fleet: since its last reset a subscription has cost
      at most the limit beyond the turns whose driver state never arrived, whatever happened to the others
      and however often its dispatcher was rebuilt. */
  lemma FleetTurnsAreBounded(cfg: Config, start: Standings, marks: seq<Slots>, turns: seq<Turns>, now: Standings,
                             t: TenantId, id: SubId)
    requires AllStand(cfg, start, marks, turns, now) && t in start && id in start[t].1.drivers
    requires SpendBound.HonestListings(cfg, SystemAt(start[t]), Share(marks, turns, t))
    ensures var end := SpendBound.Run(cfg, SystemAt(start[t]), Share(marks, turns, t));
            var tally := SpendBound.Count(SpendBound.ZERO, end.facts, id);
            && now[t].1 == end.w.db && end.w.calls == SpendBound.TurnIds(end.facts)
            && tally.turns <= SpendBound.Limit(cfg) + tally.unrecorded
  {
    RunIsBounded(cfg, start[t], Share(marks, turns, t), id);
  }

  // ----- a small fleet ---------------------------------------------------------------------------

  const OPERATORS := Credential("b", "b-key")
  const LETTING_IN := BootPass([OPERATORS], Listed([Row("a", Issued("a-key"))], false), Written)
  const FAILING := BootPass([OPERATORS], Unreachable, Written)
  const PASSES := Loads([LETTING_IN, FAILING])

  /** What the two passes come to: `a` is let in, and dropped when the listing fails. */
  lemma SmallFleet(file: StateFile)
    requires file == Unreadable
    ensures var marks := MarksOf(map[], true, true, file, PASSES, 1);
            && |marks| == 3 && marks[1].Keys == {"a", "b"} && marks[2].Keys == {"b"}
            && marks[1]["b"] == marks[2]["b"]
  {
    var rows, a := [Row("a", Issued("a-key"))], Admission(ByTenant([OPERATORS]), map[], [], false);
    assert [OPERATORS][..0] == [];
    assert ByTenant([OPERATORS]) == map["b" := "b-key"];
    assert Admit(a, map[], rows) == AdmitOne(a, map[], rows[0]);
    var r := ResolvePass(true, file, LETTING_IN);
    assert r.wanted == Some(map["b" := "b-key", "a" := "a-key"]);
    var slots := Matched(map[], r.wanted.value, 1);
    assert [LETTING_IN, FAILING][1..] == [FAILING] && [FAILING][1..] == [];
    BootMarksHead(map[], true, file, [LETTING_IN, FAILING], 1);
    BootMarksHead(slots, true, r.file, [FAILING], 2);
    LoadsAreBoots(map[], true, file, [LETTING_IN, FAILING], 1);
  }

  /** A runner with a state file to fill, and a record layer for each of two tenants. */
  method NewFleet(cfg: Config) returns (r: Runner, forA: RecordStore, forB: RecordStore)
    ensures r.Valid() && r.bootstraps && r.dispatchers == map[] && Present(r.dispatchers) == map[]
    ensures r.boot.hasFile && r.boot.file == Unreadable
    ensures fresh(r) && fresh(r.boot) && fresh(r.adapter) && fresh(forA) && fresh(forB) && forA != forB
  {
    forA := new RecordStore(map[]);
    forB := new RecordStore(map[]);
    var adapter := new AgentAdapter();
    var boot := new Bootstrapper(true, Unreadable);
    r := new Runner(cfg, adapter, boot, true);
  }

  /** The two stores, as a function of the tenant. */
  function Either(forA: RecordStore, forB: RecordStore): TenantId -> RecordStore {
    t => if t == "a" then forA else forB
  }

  /** An operator's tenant and one the runner lets itself into, over two passes: the process in small. */
  method DriveTwoPasses(cfg: Config, turns: seq<Turns>) returns (r: Runner)
    requires |turns| == 2
    ensures r.dispatchers.Keys == {"b"}
  {
    var forA, forB, raised;
    r, forA, forB := NewFleet(cfg);
    PassesNamed();
    ghost var marks;
    marks, raised := ServeAll(r, PASSES, turns, Either(forA, forB), {"a", "b"});
    SmallFleet(Unreadable);
  }

  lemma SmallFleetTracked(seen: seq<map<TenantId, Dispatcher>>)
    requires Tracks(seen, MarksOf(map[], true, true, Unreadable, PASSES, 1))
    ensures |seen| == 3
    ensures "a" in seen[1] && "a" !in seen[2] && "b" in seen[1] && "b" in seen[2] && seen[1]["b"] == seen[2]["b"]
  {
    SmallFleet(Unreadable);
  }

  /** The dispatchers in small: the operator's tenant keeps its object, the other loses it. */
  method MatchTwoPasses(cfg: Config) returns (r: Runner, ghost seen: seq<map<TenantId, Dispatcher>>)
    ensures |seen| == 3 && seen[2] == r.dispatchers
    ensures "a" in seen[1] && "a" !in seen[2] && "b" in seen[1] && "b" in seen[2] && seen[1]["b"] == seen[2]["b"]
  {
    var forA, forB, raised;
    r, forA, forB := NewFleet(cfg);
    PassesNamed();
    seen, raised := ReconcileAll(r, PASSES, Either(forA, forB), {"a", "b"});
    SmallFleetTracked(seen);
  }

  lemma PassesNamed()
    ensures AllNamed(PASSES, {"a", "b"})
  {
  }
}

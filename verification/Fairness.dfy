/**
 How long a due subscription can wait behind busier ones (flow_runner/dispatcher.py:77-134).

 One pass ends at the first agent turn, so the claim that no family starves is a claim about several
 passes. `GuaranteedIff` says exactly when it is true: after any history since the last restart, the
 subscription at index k is reached within k+1 passes, whatever the environment does, if and only if
 every earlier cadence is longer than those passes take.
 */
module Fairness {
  import opened Options
  import opened Collections
  import opened RecordLayer
  import opened Dispatching

  predicate DueAt(state: Hints, sub: Subscription, now: int) {
    Due(sub, Lookup(state, sub.id), now)
  }

  // ----- what one pass does to the hints ---------------------------------------------------------

  lemma VisitFrame(cfg: Config, now: int, item: Item, state: Hints, w: World, id: SubId)
    ensures var v := VisitItem(cfg, now, item, state, w);
            && v.polled == (if DueAt(state, item.sub, now) then [item.sub.id] else [])
            && (id in v.polled ==> Lookup(v.state, id).lastPolled == Some(now))
            && (id !in v.polled ==> Lookup(v.state, id) == Lookup(state, id))
  {
  }

  predicate DueHere(items: seq<Item>, i: int, state: Hints, now: int, id: SubId) {
    0 <= i < |items| && items[i].sub.id == id && DueAt(state, items[i].sub, now)
  }

  /** Only subscriptions the pass got to are touched, and those are stamped with its time. */
  lemma {:induction false} PassFrame(cfg: Config, now: int, items: seq<Item>, state: Hints, w: World, id: SubId)
    requires DistinctSubs(Subs(items))
    ensures var p := PollFrom(cfg, now, items, state, w);
            && (id in p.polled ==> Lookup(p.state, id).lastPolled == Some(now)
                                   && exists i :: DueHere(items, i, state, now, id))
            && (id !in p.polled ==> Lookup(p.state, id) == Lookup(state, id))
    decreases |items|
  {
    if items != [] {
      var v := VisitItem(cfg, now, items[0], state, w);
      VisitFrame(cfg, now, items[0], state, w, id);
      if !v.Stops() {
        PassFrame(cfg, now, items[1..], v.state, v.w, id);
        var rest := PollFrom(cfg, now, items[1..], v.state, v.w);
        if id in rest.polled {
          var i :| DueHere(items[1..], i, v.state, now, id);
          assert items[0].sub.id != id && DueHere(items, i + 1, state, now, id);
        } else if id in v.polled {
          assert DueHere(items, 0, state, now, id);
        }
      } else if id in v.polled {
        assert DueHere(items, 0, state, now, id);
      }
    }
  }

  /** A head that is due is polled; one that is not leaves the rest to be polled from the same hints. */
  lemma PolledHead(cfg: Config, now: int, items: seq<Item>, state: Hints, w: World)
    requires items != []
    ensures var v, p := VisitItem(cfg, now, items[0], state, w), PollFrom(cfg, now, items, state, w);
            if DueAt(state, items[0].sub, now) then items[0].sub.id in p.polled
            else
              && p.polled == PollFrom(cfg, now, items[1..], v.state, v.w).polled
              && forall id :: Lookup(v.state, id) == Lookup(state, id)
  {
    forall id
      ensures !DueAt(state, items[0].sub, now) ==>
        Lookup(VisitItem(cfg, now, items[0], state, w).state, id) == Lookup(state, id)
    {
      VisitFrame(cfg, now, items[0], state, w, id);
    }
  }

  predicate FirstDue(items: seq<Item>, d: nat, state: Hints, now: int) {
    && d < |items| && DueAt(state, items[d].sub, now)
    && forall j :: 0 <= j < d ==> !DueAt(state, items[j].sub, now)
  }

  lemma FirstDueTail(items: seq<Item>, d: nat, state: Hints, state': Hints, now: int)
    requires FirstDue(items, d, state, now) && d > 0 && forall id :: Lookup(state', id) == Lookup(state, id)
    ensures FirstDue(items[1..], d - 1, state', now)
  {
    forall j | 0 <= j < |items| - 1
      ensures DueAt(state', items[1..][j].sub, now) == DueAt(state, items[j + 1].sub, now)
    {
      assert items[1..][j] == items[j + 1];
    }
  }

  lemma {:induction false} FirstDueIsPolled(cfg: Config, now: int, items: seq<Item>, state: Hints, w: World, d: nat)
    requires FirstDue(items, d, state, now)
    ensures items[d].sub.id in PollFrom(cfg, now, items, state, w).polled
    decreases d
  {
    PolledHead(cfg, now, items, state, w);
    if d > 0 {
      var v := VisitItem(cfg, now, items[0], state, w);
      FirstDueTail(items, d, state, v.state, now);
      FirstDueIsPolled(cfg, now, items[1..], v.state, v.w, d - 1);
    }
  }

  /** A due subscription the pass did not get to was held up by an earlier due one: the first. */
  lemma HeldUpBy(cfg: Config, now: int, items: seq<Item>, state: Hints, w: World, k: nat) returns (i: nat)
    requires k < |items| && DueAt(state, items[k].sub, now)
    requires items[k].sub.id !in PollFrom(cfg, now, items, state, w).polled
    ensures i < k && DueAt(state, items[i].sub, now)
    ensures items[i].sub.id in PollFrom(cfg, now, items, state, w).polled
  {
    i := 0;
    while !DueAt(state, items[i].sub, now)
      invariant i <= k && forall j :: 0 <= j < i ==> !DueAt(state, items[j].sub, now)
      decreases k - i
    {
      i := i + 1;
    }
    FirstDueIsPolled(cfg, now, items, state, w, i);
  }

  // ----- several passes --------------------------------------------------------------------------

  /** The hints and the world just before pass p; `times[p]` is the clock of pass p, `lists[p]` its
      listing. */
  function Before(cfg: Config, times: seq<int>, lists: seq<seq<Item>>, state: Hints, w: World, p: nat): (Hints, World)
    requires |times| == |lists| && p <= |lists|
    decreases p, 0
  {
    if p == 0 then (state, w)
    else
      var pass := PassAt(cfg, times, lists, state, w, p - 1);
      (pass.state, pass.w)
  }

  function PassAt(cfg: Config, times: seq<int>, lists: seq<seq<Item>>, state: Hints, w: World, p: nat): Pass
    requires |times| == |lists| && p < |lists|
    decreases p, 1
  {
    var before := Before(cfg, times, lists, state, w, p);
    PollFrom(cfg, times[p], lists[p], before.0, before.1)
  }

  /** Some pass of the window gets to `id`. */
  ghost predicate Reached(cfg: Config, times: seq<int>, lists: seq<seq<Item>>, state: Hints, w: World, id: SubId)
    requires |times| == |lists|
  {
    exists p :: 0 <= p < |lists| && id in PassAt(cfg, times, lists, state, w, p).polled
  }

  /** The listing shows these subscriptions in this order; parks and counters may differ. */
  predicate Shows(items: seq<Item>, subs: seq<Subscription>) {
    |items| == |subs| &&
    forall i :: 0 <= i < |subs| ==> items[i].sub.id == subs[i].id && Cadence(items[i].sub) == Cadence(subs[i])
  }

  /** Every listing of the window shows `subs`, with the one at index k unparked. */
  predicate Steady(lists: seq<seq<Item>>, subs: seq<Subscription>, k: nat)
    requires k < |subs|
  {
    forall p :: 0 <= p < |lists| ==> Shows(lists[p], subs) && !lists[p][k].sub.parked
  }

  predicate Ordered(times: seq<int>) {
    forall p, q :: 0 <= p < q < |times| ==> times[p] < times[q]
  }

  /** Earlier subscriptions still able to hold up index k: those not yet polled inside the window. */
  ghost predicate AllOthersSpent(state: Hints, subs: seq<Subscription>, k: nat, start: int, unpolled: set<nat>)
    requires k < |subs|
  {
    forall i :: 0 <= i < k && i !in unpolled ==>
      var last := Lookup(state, subs[i].id).lastPolled;
      last.Some? && last.value >= start
  }

  /** What a pass at `now` that polled `polled` leaves of a hint. */
  predicate Stamped(state: Hints, after: Hints, polled: seq<SubId>, now: int, id: SubId) {
    if id in polled then Lookup(after, id).lastPolled == Some(now) else Lookup(after, id) == Lookup(state, id)
  }

  lemma UseUp(state: Hints, after: Hints, polled: seq<SubId>, now: int, subs: seq<Subscription>, k: nat, start: int,
              earlier: set<nat>, i: nat) returns (later: set<nat>)
    requires k < |subs| && start <= now && i in earlier && forall j :: j in earlier ==> j < k
    requires subs[i].id in polled && AllOthersSpent(state, subs, k, start, earlier)
    requires forall j :: 0 <= j < |subs| ==> Stamped(state, after, polled, now, subs[j].id)
    ensures |later| < |earlier| && later <= earlier && AllOthersSpent(after, subs, k, start, later)
  {
    later := set j | j in earlier && subs[j].id !in polled;
    Within(later, earlier - {i});
    forall j | 0 <= j < k && j !in later
      ensures var last := Lookup(after, subs[j].id).lastPolled; last.Some? && last.value >= start
    {
      assert Stamped(state, after, polled, now, subs[j].id);
    }
  }

  /** A pass that does not get to index k uses up one of the earlier indices. */
  lemma UsesUpOne(cfg: Config, now: int, items: seq<Item>, state: Hints, w: World, subs: seq<Subscription>, k: nat,
                  start: int, earlier: set<nat>) returns (later: set<nat>)
    requires DistinctSubs(subs) && k < |subs| && Shows(items, subs) && start <= now
    requires forall i :: 0 <= i < k ==> Cadence(subs[i]) > now - start
    requires (forall i :: i in earlier ==> i < k) && AllOthersSpent(state, subs, k, start, earlier)
    requires DueAt(state, items[k].sub, now) && subs[k].id !in PollFrom(cfg, now, items, state, w).polled
    ensures |later| < |earlier| && later <= earlier
    ensures var after := PollFrom(cfg, now, items, state, w).state;
            AllOthersSpent(after, subs, k, start, later) && Lookup(after, subs[k].id) == Lookup(state, subs[k].id)
  {
    var p := PollFrom(cfg, now, items, state, w);
    var i := HeldUpBy(cfg, now, items, state, w, k);
    ShownAreDistinct(items, subs);
    forall j | 0 <= j < |subs|
      ensures Stamped(state, p.state, p.polled, now, subs[j].id)
    {
      PassFrame(cfg, now, items, state, w, subs[j].id);
    }
    assert Stamped(state, p.state, p.polled, now, subs[k].id);
    later := UseUp(state, p.state, p.polled, now, subs, k, start, earlier, i);
  }

  lemma ShownAreDistinct(items: seq<Item>, subs: seq<Subscription>)
    requires DistinctSubs(subs) && Shows(items, subs)
    ensures DistinctSubs(Subs(items))
  {
  }

  /** After p passes without index k, at most k - p earlier indices can still hold it up. */
  lemma {:induction false} StillWaiting(cfg: Config, times: seq<int>, lists: seq<seq<Item>>, state: Hints, w: World,
                                        subs: seq<Subscription>, k: nat, p: nat) returns (unpolled: set<nat>)
    requires DistinctSubs(subs) && k < |subs| && |times| == |lists| && Ordered(times) && Steady(lists, subs, k)
    requires p < |lists| && forall i :: 0 <= i < k ==> Cadence(subs[i]) > times[|times| - 1] - times[0]
    requires DueAt(state, lists[0][k].sub, times[0])
    requires !Reached(cfg, times, lists, state, w, subs[k].id)
    ensures |unpolled| + p <= k && forall i :: i in unpolled ==> i < k
    ensures var now := Before(cfg, times, lists, state, w, p).0;
            AllOthersSpent(now, subs, k, times[0], unpolled) && DueAt(now, lists[p][k].sub, times[p])
  {
    if p == 0 {
      unpolled := Below(k);
    } else {
      var earlier := StillWaiting(cfg, times, lists, state, w, subs, k, p - 1);
      var before := Before(cfg, times, lists, state, w, p - 1);
      assert subs[k].id !in PassAt(cfg, times, lists, state, w, p - 1).polled;
      unpolled := UsesUpOne(cfg, times[p - 1], lists[p - 1], before.0, before.1, subs, k, times[0], earlier);
    }
  }

  function Below(k: nat): (s: set<nat>)
    ensures |s| == k && forall i :: i in s <==> 0 <= i < k
  {
    if k == 0 then {} else Below(k - 1) + {k - 1}
  }

  // ----- a permanently busy workspace ------------------------------------------------------------

  const CONFIG := Config(3, 3600)

  /** The queue never drains, every call works, every due look spends an agent turn that moves something. */
  const BUSY := Look(Got(true), Got(2), 0, Delivered, Got((0, 0)), Got(RunResult(true, None, {})), Got(1),
                     Got((0, 0)), Delivered, Delivered)

  function Listed(sub: Subscription, look: Look): Item {
    Item(sub.(unmoved := 0, parked := false), look, {})
  }

  function BusyList(subs: seq<Subscription>): (items: seq<Item>)
    ensures |items| == |subs| && forall i :: 0 <= i < |subs| ==> items[i] == Listed(subs[i], BUSY)
  {
    seq(|subs|, i requires 0 <= i < |subs| => Listed(subs[i], BUSY))
  }

  /** No subscription has an unmoved run on record. */
  ghost predicate Untroubled(subs: seq<Subscription>, w: World) {
    forall i :: 0 <= i < |subs| ==> subs[i].id in w.db.drivers && w.db.drivers[subs[i].id] == Driver(0, false)
  }

  /** Looking at this item ends the pass whenever the item is due, and leaves the driver states alone. */
  ghost predicate StopsWhenDue(now: int, item: Item) {
    forall state, w: World :: item.sub.id in w.db.drivers && w.db.drivers[item.sub.id] == Driver(0, false) ==>
      var v := VisitItem(CONFIG, now, item, state, w);
      v.Stops() == DueAt(state, item.sub, now) && v.w.db.drivers == w.db.drivers
  }

  lemma BusyDispatch(sub: Subscription, st: SubscriptionState, w: World)
    requires sub.id in w.db.drivers && w.db.drivers[sub.id] == Driver(0, false)
    ensures var step := Dispatch(CONFIG, sub, st, BUSY, w);
            step.ending == Returned(Some(|w.db.runs|), true) && step.w.db.drivers == w.db.drivers
  {
  }

  lemma BusyStopsWhenDue(now: int, sub: Subscription)
    ensures StopsWhenDue(now, Listed(sub, BUSY))
  {
    var item := Listed(sub, BUSY);
    forall state, w: World | item.sub.id in w.db.drivers && w.db.drivers[item.sub.id] == Driver(0, false)
      ensures var v := VisitItem(CONFIG, now, item, state, w);
              v.Stops() == DueAt(state, item.sub, now) && v.w.db.drivers == w.db.drivers
    {
      var w0 := w.(db := ClearParks(w.db, {}));
      assert w0.db.drivers == w.db.drivers;
      BusyDispatch(item.sub, Stamp(state, sub.id, now)[sub.id], w0);
    }
  }

  /** With something due at index e, the pass polls exactly one subscription, no later than that. */
  lemma {:induction false} BusyPass(now: int, items: seq<Item>, state: Hints, w: World, e: nat) returns (d: nat)
    requires e < |items| && DueAt(state, items[e].sub, now) && Untroubled(Subs(items), w)
    requires forall i :: 0 <= i < |items| ==> StopsWhenDue(now, items[i])
    ensures d <= e && DueAt(state, items[d].sub, now)
    ensures var p := PollFrom(CONFIG, now, items, state, w);
            p.polled == [items[d].sub.id] && p.w.db.drivers == w.db.drivers
    decreases |items|
  {
    var v := VisitItem(CONFIG, now, items[0], state, w);
    assert StopsWhenDue(now, items[0]) && items[0].sub.id == Subs(items)[0].id;
    VisitFrame(CONFIG, now, items[0], state, w, items[e].sub.id);
    if v.Stops() {
      d := 0;
    } else {
      assert Subs(items[1..]) == Subs(items)[1..] && items[1..][e - 1] == items[e];
      d := BusyPass(now, items[1..], v.state, v.w, e - 1);
      VisitFrame(CONFIG, now, items[0], state, w, items[d + 1].sub.id);
      d := d + 1;
    }
  }

  // ----- a history that leaves chosen hints ------------------------------------------------------

  /** Nothing happens: the workflow check fails, and neither report nor row arrives. */
  const QUIET := BUSY.(workflow := ApiFailure, open := RequestLost(false), report := RequestLost(false))

  lemma QuietVisit(now: int, sub: Subscription, state: Hints, w: World)
    ensures var v := VisitItem(CONFIG, now, Listed(sub, QUIET), state, w); !v.Stops() && v.w == w
  {
    assert ClearParks(w.db, {}).drivers == w.db.drivers;
  }

  /** A quiet pass polls everything that is due. */
  lemma {:induction false} QuietPass(now: int, items: seq<Item>, state: Hints, w: World, k: nat)
    requires DistinctSubs(Subs(items)) && k < |items|
    requires forall i :: 0 <= i < |items| ==> items[i] == Listed(items[i].sub, QUIET)
    ensures PollFrom(CONFIG, now, items, state, w).w == w
    ensures items[k].sub.id in PollFrom(CONFIG, now, items, state, w).polled <==> DueAt(state, items[k].sub, now)
    decreases |items|
  {
    var v := VisitItem(CONFIG, now, items[0], state, w);
    QuietVisit(now, items[0].sub, state, w);
    VisitFrame(CONFIG, now, items[0], state, w, items[k].sub.id);
    assert Subs(items[1..]) == Subs(items)[1..];
    if k > 0 {
      QuietPass(now, items[1..], v.state, v.w, k - 1);
    } else if |items| > 1 {
      QuietPass(now, items[1..], v.state, v.w, 0);
      PassFrame(CONFIG, now, items[1..], v.state, v.w, items[0].sub.id);
      forall i | 0 < i < |items|
        ensures items[i].sub.id != items[0].sub.id
      {
        assert Subs(items)[0].id != Subs(items)[i].id;
      }
    }
  }

  /** Early enough to be due in pass 1 of the window, too late to be due in pass 0. */
  function Primed(times: seq<int>, sub: Subscription): int
    requires |times| > 1
  {
    if times[1] - Cadence(sub) < times[0] then times[1] - Cadence(sub) else times[0] - 1
  }

  /** A time none of the first n subscriptions is primed before. */
  function Earliest(subs: seq<Subscription>, times: seq<int>, n: nat): (lo: int)
    requires n <= |subs| && |times| > 1
    ensures lo <= times[0] && forall j :: 0 <= j < n ==> lo <= Primed(times, subs[j])
  {
    if n == 0 then times[0]
    else
      var lo := Earliest(subs, times, n - 1);
      if Primed(times, subs[n - 1]) < lo then Primed(times, subs[n - 1]) else lo
  }

  /** The first n subscriptions as far as they are primed at `now`. */
  function PrimeList(subs: seq<Subscription>, times: seq<int>, n: nat, now: int): seq<Item>
    requires n <= |subs| && |times| > 1
  {
    if n == 0 then []
    else
      PrimeList(subs, times, n - 1, now) +
      if Primed(times, subs[n - 1]) == now then [Listed(subs[n - 1], QUIET)] else []
  }

  /** Item i of a listing lists one of the first n subscriptions primed at `now`. */
  ghost predicate ListsPrimed(subs: seq<Subscription>, times: seq<int>, n: nat, now: int, item: Item)
    requires n <= |subs| && |times| > 1
  {
    exists j :: 0 <= j < n && Primed(times, subs[j]) == now && item == Listed(subs[j], QUIET)
  }

  lemma {:induction false} PrimeListExact(subs: seq<Subscription>, times: seq<int>, n: nat, now: int)
    requires DistinctSubs(subs) && n <= |subs| && |times| > 1
    ensures var items := PrimeList(subs, times, n, now);
            && DistinctSubs(Subs(items))
            && (forall i :: 0 <= i < |items| ==> ListsPrimed(subs, times, n, now, items[i]))
            && forall j :: 0 <= j < n && Primed(times, subs[j]) == now ==> Listed(subs[j], QUIET) in items
  {
    if n > 0 {
      PrimeListExact(subs, times, n - 1, now);
      var before, items := PrimeList(subs, times, n - 1, now), PrimeList(subs, times, n, now);
      forall i | 0 <= i < |items|
        ensures ListsPrimed(subs, times, n, now, items[i])
        ensures i < |before| ==> Subs(items)[i].id != subs[n - 1].id
      {
        if i < |before| {
          assert items[i] == before[i] && ListsPrimed(subs, times, n - 1, now, before[i]);
        }
      }
      var last := if Primed(times, subs[n - 1]) == now then [Listed(subs[n - 1], QUIET).sub] else [];
      assert Subs(items) == Subs(before) + last;
    }
  }

  /** One quiet pass a second, from `lo` on. */
  function Seconds(lo: int, n: nat): (times: seq<int>)
    ensures |times| == n && forall p :: 0 <= p < n ==> times[p] == lo + p
  {
    seq(n, p => lo + p)
  }

  function PrimeLists(subs: seq<Subscription>, times: seq<int>, slow: nat, lo: int, n: nat): (lists: seq<seq<Item>>)
    requires slow <= |subs| && |times| > 1
    ensures |lists| == n && forall p :: 0 <= p < n ==> lists[p] == PrimeList(subs, times, slow, lo + p)
  {
    seq(n, p requires 0 <= p < n => PrimeList(subs, times, slow, lo + p))
  }

  /** The hints when every index below `slow` primed before `now` has been polled, and nothing else. */
  ghost predicate PrimedUntil(state: Hints, subs: seq<Subscription>, times: seq<int>, slow: nat, now: int)
    requires slow <= |subs| && |times| > 1
  {
    forall j :: 0 <= j < |subs| ==>
      Lookup(state, subs[j].id).lastPolled
      == if j < slow && Primed(times, subs[j]) < now then Some(Primed(times, subs[j])) else None
  }

  /** A quiet pass polls `id` exactly when it is listed and due. */
  lemma QuietPolls(now: int, items: seq<Item>, state: Hints, w: World, id: SubId)
    requires DistinctSubs(Subs(items)) && forall i :: 0 <= i < |items| ==> items[i] == Listed(items[i].sub, QUIET)
    ensures var p := PollFrom(CONFIG, now, items, state, w);
            p.w == w && (id in p.polled <==> exists i :: DueHere(items, i, state, now, id))
  {
    PassFrame(CONFIG, now, items, state, w, id);
    if items != [] {
      QuietPass(now, items, state, w, 0);
    }
    if i :| DueHere(items, i, state, now, id) {
      QuietPass(now, items, state, w, i);
    }
  }

  /** A new subscription is due in the quiet passes exactly at the time it is primed. */
  lemma PrimedIsDue(subs: seq<Subscription>, times: seq<int>, slow: nat, now: int, items: seq<Item>, state: Hints,
                    j: nat)
    requires DistinctSubs(subs) && slow <= |subs| && j < |subs| && |times| > 1
    requires PrimedUntil(state, subs, times, slow, now)
    requires items == PrimeList(subs, times, slow, now)
    ensures (exists i :: DueHere(items, i, state, now, subs[j].id)) <==> j < slow && Primed(times, subs[j]) == now
  {
    PrimeListExact(subs, times, slow, now);
    if i :| DueHere(items, i, state, now, subs[j].id) {
      assert ListsPrimed(subs, times, slow, now, items[i]);
    }
    if j < slow && Primed(times, subs[j]) == now {
      var i :| 0 <= i < |items| && items[i] == Listed(subs[j], QUIET);
      assert DueHere(items, i, state, now, subs[j].id);
    }
  }

  lemma PrimeListHonest(subs: seq<Subscription>, times: seq<int>, n: nat, now: int, items: seq<Item>, w: World)
    requires DistinctSubs(subs) && n <= |subs| && |times| > 1 && items == PrimeList(subs, times, n, now)
    ensures DistinctSubs(Subs(items)) && forall i :: 0 <= i < |items| ==> items[i] == Listed(items[i].sub, QUIET)
    ensures Untroubled(subs, w) ==> ReadFrom(items, w.db)
  {
    PrimeListExact(subs, times, n, now);
    forall i | 0 <= i < |items|
      ensures items[i] == Listed(items[i].sub, QUIET) && Subs(items)[i] == items[i].sub
      ensures Untroubled(subs, w) ==>
        items[i].sub.id in w.db.drivers && w.db.drivers[items[i].sub.id] == Driver(0, false)
    {
      assert ListsPrimed(subs, times, n, now, items[i]);
    }
  }

  /** What one quiet pass does to the hint of subscription j. */
  lemma PrimeOne(subs: seq<Subscription>, times: seq<int>, slow: nat, now: int, items: seq<Item>, state: Hints,
                 w: World, j: nat)
    requires DistinctSubs(subs) && slow <= |subs| && |times| > 1 && PrimedUntil(state, subs, times, slow, now)
    requires items == PrimeList(subs, times, slow, now) && j < |subs|
    ensures var p := PollFrom(CONFIG, now, items, state, w);
            Lookup(p.state, subs[j].id).lastPolled
            == if j < slow && Primed(times, subs[j]) < now + 1 then Some(Primed(times, subs[j])) else None
  {
    PrimeListHonest(subs, times, slow, now, items, w);
    PassFrame(CONFIG, now, items, state, w, subs[j].id);
    QuietPolls(now, items, state, w, subs[j].id);
    PrimedIsDue(subs, times, slow, now, items, state, j);
  }

  lemma PrimePass(subs: seq<Subscription>, times: seq<int>, slow: nat, now: int, items: seq<Item>, state: Hints,
                  w: World)
    requires DistinctSubs(subs) && slow <= |subs| && |times| > 1 && PrimedUntil(state, subs, times, slow, now)
    requires items == PrimeList(subs, times, slow, now)
    ensures var p := PollFrom(CONFIG, now, items, state, w);
            p.w == w && PrimedUntil(p.state, subs, times, slow, now + 1)
  {
    PrimeListHonest(subs, times, slow, now, items, w);
    QuietPolls(now, items, state, w, "");
    var after := PollFrom(CONFIG, now, items, state, w).state;
    forall j | 0 <= j < |subs|
      ensures Lookup(after, subs[j].id).lastPolled
              == if j < slow && Primed(times, subs[j]) < now + 1 then Some(Primed(times, subs[j])) else None
    {
      PrimeOne(subs, times, slow, now, items, state, w, j);
    }
  }

  lemma {:induction false} PrimedHistory(subs: seq<Subscription>, times: seq<int>, slow: nat, lo: int,
                                         earlier: seq<int>,
                                         past: seq<seq<Item>>, p: nat, w: World)
    requires DistinctSubs(subs) && slow <= |subs| && |times| > 1 && lo <= Earliest(subs, times, slow)
    requires earlier == Seconds(lo, |earlier|) && past == PrimeLists(subs, times, slow, lo, |earlier|) && p <= |earlier|
    ensures var before := Before(CONFIG, earlier, past, map[], w, p);
            before.1 == w && PrimedUntil(before.0, subs, times, slow, lo + p)
  {
    if p > 0 {
      PrimedHistory(subs, times, slow, lo, earlier, past, p - 1, w);
      var before := Before(CONFIG, earlier, past, map[], w, p - 1);
      PrimePass(subs, times, slow, earlier[p - 1], past[p - 1], before.0, before.1);
    }
  }

  // ----- a busy workspace that starves an index --------------------------------------------------

  function KnownWorld(subs: seq<Subscription>): (w: World)
    ensures Untroubled(subs, w)
  {
    World(Records(map i | 0 <= i < |subs| :: subs[i].id := Driver(0, false), []), [])
  }

  lemma BusyListStops(subs: seq<Subscription>, now: int)
    ensures forall i :: 0 <= i < |subs| ==> StopsWhenDue(now, BusyList(subs)[i])
  {
    forall i | 0 <= i < |subs|
      ensures StopsWhenDue(now, BusyList(subs)[i])
    {
      BusyStopsWhenDue(now, subs[i]);
    }
  }

  /** A busy pass with something due before index k: one earlier index is polled, nobody else. */
  lemma BusyStep(subs: seq<Subscription>, k: nat, now: int, items: seq<Item>, state: Hints, w: World, e: nat)
      returns (d: nat)
    requires items == BusyList(subs) && DistinctSubs(subs) && e < k < |subs| && Untroubled(subs, w)
    requires DueAt(state, subs[e].(unmoved := 0, parked := false), now)
    ensures d <= e && DueAt(state, subs[d].(unmoved := 0, parked := false), now)
    ensures var p := PollFrom(CONFIG, now, items, state, w);
            && Untroubled(subs, p.w) && subs[k].id !in p.polled
            && OnlyPolled(state, p.state, subs, d, now)
  {
    BusyListStops(subs, now);
    assert Untroubled(Subs(items), w) by {
      assert forall i :: 0 <= i < |subs| ==> Subs(items)[i].id == subs[i].id;
    }
    d := BusyPass(now, items, state, w, e);
    forall j | 0 <= j < |subs| {
      PassFrame(CONFIG, now, items, state, w, subs[j].id);
    }
  }

  function BusyLists(subs: seq<Subscription>, n: nat): (lists: seq<seq<Item>>)
    ensures |lists| == n && forall p :: 0 <= p < n ==> lists[p] == BusyList(subs)
  {
    seq(n, _ => BusyList(subs))
  }

  /** Consecutive passes lie at least this far apart. */
  predicate Apart(times: seq<int>, cadence: int) {
    forall p :: 0 < p < |times| ==> times[p] - times[p - 1] >= cadence
  }

  /** A cadence no longer than the way from pass to pass is due in every pass. */
  lemma {:induction false} AlwaysDue(subs: seq<Subscription>, k: nat, times: seq<int>, lists: seq<seq<Item>>, i: nat,
                                     p: nat, w: World)
    requires DistinctSubs(subs) && i < k < |subs| && p < |times| && Ordered(times) && Apart(times, Cadence(subs[i]))
    requires lists == BusyLists(subs, |times|) && Untroubled(subs, w)
    ensures var before := Before(CONFIG, times, lists, map[], w, p);
            Untroubled(subs, before.1) && DueAt(before.0, subs[i].(unmoved := 0, parked := false), times[p])
  {
    if p > 0 {
      AlwaysDue(subs, k, times, lists, i, p - 1, w);
      var before := Before(CONFIG, times, lists, map[], w, p - 1);
      StaysDue(subs, k, times[p - 1], times[p], lists[p - 1], before.0, before.1, i);
    }
  }

  lemma StaysDue(subs: seq<Subscription>, k: nat, now: int, next: int, items: seq<Item>, state: Hints, w: World, i: nat)
    requires items == BusyList(subs) && DistinctSubs(subs) && i < k < |subs| && Untroubled(subs, w)
    requires DueAt(state, subs[i].(unmoved := 0, parked := false), now) && next > now && next - now >= Cadence(subs[i])
    ensures var p := PollFrom(CONFIG, now, items, state, w);
            Untroubled(subs, p.w) && DueAt(p.state, subs[i].(unmoved := 0, parked := false), next)
  {
    var d := BusyStep(subs, k, now, items, state, w, i);
  }

  /** The queue does not rotate by itself: with one earlier cadence no longer than the way from pass to
      pass, a busy workspace passes index k by for any number of passes from the restart on. */
  lemma AlwaysHeldUp(subs: seq<Subscription>, k: nat, times: seq<int>, lists: seq<seq<Item>>, i: nat, w: World)
    requires DistinctSubs(subs) && i < k < |subs| && Ordered(times) && Apart(times, Cadence(subs[i]))
    requires lists == BusyLists(subs, |times|) && Untroubled(subs, w)
    ensures Honest(CONFIG, times, lists, map[], w) && !Reached(CONFIG, times, lists, map[], w, subs[k].id)
  {
    forall p | 0 <= p < |lists|
      ensures ReadFrom(lists[p], Before(CONFIG, times, lists, map[], w, p).1.db)
      ensures subs[k].id !in PassAt(CONFIG, times, lists, map[], w, p).polled
    {
      AlwaysDue(subs, k, times, lists, i, p, w);
      var before := Before(CONFIG, times, lists, map[], w, p);
      UntroubledIsHonest(subs, before.1);
      var _ := BusyStep(subs, k, times[p], lists[p], before.0, before.1, i);
    }
  }

  /** The hints at the start of the window: `slow` and all after it are new, those before are primed. */
  ghost predicate Start(state: Hints, subs: seq<Subscription>, times: seq<int>, slow: nat)
    requires slow < |subs| && |times| > 1
  {
    PrimedUntil(state, subs, times, slow, times[0])
  }

  /** Earlier indices other than `slow` the window has not polled yet. */
  ghost predicate Untouched(unpolled: set<nat>, state: Hints, start: Hints, subs: seq<Subscription>, k: nat, slow: nat)
    requires k < |subs|
  {
    forall j :: j in unpolled ==> j < k && j != slow && Lookup(state, subs[j].id) == Lookup(start, subs[j].id)
  }

  /** Before each pass after the first, something ahead of index k is due: one of the k - 1 other indices,
      or, once p passes have used them all up, `slow` again. */
  lemma SomethingIsDue(subs: seq<Subscription>, k: nat, times: seq<int>, slow: nat, start: Hints, p: nat, state: Hints,
                       unpolled: set<nat>) returns (e: nat)
    requires slow < k < |subs| && |times| == k + 1 && Ordered(times) && 0 < p <= k && Start(start, subs, times, slow)
    requires Cadence(subs[slow]) <= times[k] - times[0]
    requires EnoughLeft(unpolled, state, start, subs, k, times, slow, p)
    ensures e < k && DueAt(state, subs[e].(unmoved := 0, parked := false), times[p])
  {
    if unpolled == {} {
      e := slow;
    } else {
      e :| e in unpolled;
      assert times[1] <= times[p];
    }
  }

  /** What is left after `passes` passes of the window: enough earlier indices for the passes to come, with
      `slow` to spare unless it was polled again. */
  ghost predicate EnoughLeft(unpolled: set<nat>, state: Hints, start: Hints, subs: seq<Subscription>, k: nat,
                             times: seq<int>, slow: nat, passes: nat)
    requires slow < k < |subs| && |times| > 0
  {
    && Untouched(unpolled, state, start, subs, k, slow) && |unpolled| + passes >= k
    && (|unpolled| + passes == k ==> Lookup(state, subs[slow].id).lastPolled == Some(times[0]))
  }

  /** One index polled, the other hints as they were. */
  predicate OnlyPolled(state: Hints, after: Hints, subs: seq<Subscription>, d: nat, now: int)
    requires d < |subs|
  {
    && Lookup(after, subs[d].id).lastPolled == Some(now)
    && forall j :: 0 <= j < |subs| && j != d ==> Lookup(after, subs[j].id) == Lookup(state, subs[j].id)
  }

  lemma StillEnough(unpolled: set<nat>, state: Hints, after: Hints, start: Hints, subs: seq<Subscription>, k: nat,
                    times: seq<int>, slow: nat, passes: nat, d: nat, now: int)
    requires slow < k < |subs| && |times| > 0 && d < k && OnlyPolled(state, after, subs, d, now)
    requires EnoughLeft(unpolled, state, start, subs, k, times, slow, passes)
    ensures EnoughLeft(unpolled - {d}, after, start, subs, k, times, slow, passes + 1)
  {
  }

  lemma EnoughAtFirst(start: Hints, after: Hints, subs: seq<Subscription>, k: nat, times: seq<int>, slow: nat)
    requires slow < k < |subs| && |times| > 0 && OnlyPolled(start, after, subs, slow, times[0])
    ensures EnoughLeft(Below(k) - {slow}, after, start, subs, k, times, slow, 1)
  {
  }

  lemma ScheduleFirst(subs: seq<Subscription>, k: nat, times: seq<int>, items: seq<Item>, slow: nat, start: Hints,
                      w: World)
      returns (unpolled: set<nat>)
    requires DistinctSubs(subs) && slow < k < |subs| && |times| == k + 1 && Ordered(times) && items == BusyList(subs)
    requires Start(start, subs, times, slow) && Untroubled(subs, w)
    requires forall i :: 0 <= i < slow ==> Cadence(subs[i]) > 1
    ensures var pass := PollFrom(CONFIG, times[0], items, start, w);
            Untroubled(subs, pass.w) && EnoughLeft(unpolled, pass.state, start, subs, k, times, slow, 1)
  {
    var d := BusyStep(subs, k, times[0], items, start, w, slow);
    assert d == slow;
    unpolled := Below(k) - {slow};
    EnoughAtFirst(start, PollFrom(CONFIG, times[0], items, start, w).state, subs, k, times, slow);
  }

  lemma ScheduleNext(subs: seq<Subscription>, k: nat, times: seq<int>, items: seq<Item>, slow: nat, start: Hints,
                     state: Hints, w: World, p: nat, earlier: set<nat>) returns (unpolled: set<nat>)
    requires DistinctSubs(subs) && slow < k < |subs| && |times| == k + 1 && Ordered(times) && items == BusyList(subs)
    requires Start(start, subs, times, slow) && Untroubled(subs, w) && Cadence(subs[slow]) <= times[k] - times[0]
    requires 0 < p < k && EnoughLeft(earlier, state, start, subs, k, times, slow, p)
    ensures var pass := PollFrom(CONFIG, times[p], items, state, w);
            Untroubled(subs, pass.w) && EnoughLeft(unpolled, pass.state, start, subs, k, times, slow, p + 1)
  {
    var e := SomethingIsDue(subs, k, times, slow, start, p, state, earlier);
    var d := BusyStep(subs, k, times[p], items, state, w, e);
    unpolled := earlier - {d};
    var after := PollFrom(CONFIG, times[p], items, state, w).state;
    StillEnough(earlier, state, after, start, subs, k, times, slow, p, d, times[p]);
  }

  /** The first pass of the window goes to `slow`, and every later one to an index before k. */
  lemma {:induction false} AlwaysOnSchedule(subs: seq<Subscription>, k: nat, times: seq<int>, lists: seq<seq<Item>>,
                                            slow: nat, start: Hints, w: World, p: nat) returns (unpolled: set<nat>)
    requires DistinctSubs(subs) && slow < k < |subs| && |times| == k + 1 && Ordered(times) && 0 < p <= k
    requires lists == BusyLists(subs, k + 1)
    requires Start(start, subs, times, slow) && Untroubled(subs, w) && Cadence(subs[slow]) <= times[k] - times[0]
    requires forall i :: 0 <= i < slow ==> Cadence(subs[i]) > 1
    ensures var before := Before(CONFIG, times, lists, start, w, p);
            Untroubled(subs, before.1) && EnoughLeft(unpolled, before.0, start, subs, k, times, slow, p)
  {
    if p == 1 {
      unpolled := ScheduleFirst(subs, k, times, lists[0], slow, start, w);
    } else {
      var earlier := AlwaysOnSchedule(subs, k, times, lists, slow, start, w, p - 1);
      var before := Before(CONFIG, times, lists, start, w, p - 1);
      unpolled := ScheduleNext(subs, k, times, lists[p - 1], slow, start, before.0, before.1, p - 1, earlier);
    }
  }

  // ----- the exact condition ---------------------------------------------------------------------

  /** Every listing was read from the records as they were at that pass. */
  ghost predicate Honest(cfg: Config, times: seq<int>, lists: seq<seq<Item>>, state: Hints, w: World)
    requires |times| == |lists|
  {
    forall p :: 0 <= p < |lists| ==> ReadFrom(lists[p], Before(cfg, times, lists, state, w, p).1.db)
  }

  /** What the runner does between a restart and the end of the window: passes at `earlier` over `past`,
      then the passes of the window over `lists`. */
  datatype History = History(cfg: Config, w: World, earlier: seq<int>, past: seq<seq<Item>>, lists: seq<seq<Item>>)

  /** The hints and the world the window starts from. */
  function WindowStart(h: History): (Hints, World)
    requires |h.earlier| == |h.past|
  {
    Before(h.cfg, h.earlier, h.past, map[], h.w, |h.past|)
  }

  /** A history that can happen, in which index k stays listed in its place and is due when the window
      starts. */
  ghost predicate Happens(h: History, subs: seq<Subscription>, k: nat, times: seq<int>)
    requires k < |subs| && |times| > 0
  {
    && |h.earlier| == |h.past| && |h.lists| == |times| && Ordered(h.earlier + times)
    && Honest(h.cfg, h.earlier, h.past, map[], h.w)
    && var now := WindowStart(h);
    && Honest(h.cfg, times, h.lists, now.0, now.1)
    && Steady(h.lists, subs, k) && DueAt(now.0, h.lists[0][k].sub, times[0])
  }

  ghost predicate ReachedIn(h: History, subs: seq<Subscription>, k: nat, times: seq<int>)
    requires k < |subs| && |h.earlier| == |h.past| && |h.lists| == |times|
  {
    Reached(h.cfg, times, h.lists, WindowStart(h).0, WindowStart(h).1, subs[k].id)
  }

  /** Whatever happened since the restart and whatever the environment does, a due subscription at index k
      is got to within the passes at `times`. */
  ghost predicate Guaranteed(subs: seq<Subscription>, k: nat, times: seq<int>)
    requires k < |subs| && |times| > 0
  {
    forall h :: Happens(h, subs, k, times) ==> ReachedIn(h, subs, k, times)
  }

  /** Of any hints and any listings at all, honest or not. */
  lemma BoundedWaiting(cfg: Config, subs: seq<Subscription>, k: nat, times: seq<int>, lists: seq<seq<Item>>,
                       state: Hints, w: World)
    requires DistinctSubs(subs) && k < |subs| && |times| == |lists| == k + 1 && Ordered(times) && Steady(lists, subs, k)
    requires forall i :: 0 <= i < k ==> Cadence(subs[i]) > times[k] - times[0]
    requires DueAt(state, lists[0][k].sub, times[0])
    ensures Reached(cfg, times, lists, state, w, subs[k].id)
  {
    if !Reached(cfg, times, lists, state, w, subs[k].id) {
      var unpolled := StillWaiting(cfg, times, lists, state, w, subs, k, k);
      var before := Before(cfg, times, lists, state, w, k);
      assert subs[k].id !in PassAt(cfg, times, lists, state, w, k).polled;
      var _ := UsesUpOne(cfg, times[k], lists[k], before.0, before.1, subs, k, times[0], unpolled);
    }
  }

  lemma UntroubledIsHonest(subs: seq<Subscription>, w: World)
    requires DistinctSubs(subs) && Untroubled(subs, w)
    ensures ReadFrom(BusyList(subs), w.db)
  {
  }

  lemma BusySteady(subs: seq<Subscription>, k: nat, lists: seq<seq<Item>>)
    requires k < |subs| && lists == BusyLists(subs, |lists|)
    ensures Steady(lists, subs, k)
    ensures forall p :: 0 <= p < |lists| ==> lists[p][k].sub == subs[k].(unmoved := 0, parked := false)
  {
  }

  /** What it takes for a history to starve index k. */
  lemma Starves(h: History, subs: seq<Subscription>, k: nat, times: seq<int>)
    requires k < |subs| && |h.earlier| == |h.past| && |h.lists| == |times| > 0 && Ordered(h.earlier + times)
    requires Honest(h.cfg, h.earlier, h.past, map[], h.w) && Steady(h.lists, subs, k)
    requires Honest(h.cfg, times, h.lists, WindowStart(h).0, WindowStart(h).1)
    requires DueAt(WindowStart(h).0, h.lists[0][k].sub, times[0])
    requires !Reached(h.cfg, times, h.lists, WindowStart(h).0, WindowStart(h).1, subs[k].id)
    ensures Happens(h, subs, k, times) && !ReachedIn(h, subs, k, times)
  {
  }

  /** One subscription that is due every second holds up all after it from the start. */
  lemma StarvedFromTheStart(subs: seq<Subscription>, k: nat, times: seq<int>, lists: seq<seq<Item>>, i: nat)
      returns (h: History)
    requires DistinctSubs(subs) && i < k < |subs| && |times| == |lists| == k + 1 && Ordered(times)
    requires Cadence(subs[i]) <= 1
    requires lists == BusyLists(subs, |lists|)
    ensures Happens(h, subs, k, times) && !ReachedIn(h, subs, k, times)
  {
    h := History(CONFIG, KnownWorld(subs), [], [], lists);
    AlwaysHeldUp(subs, k, times, lists, i, h.w);
    BusySteady(subs, k, lists);
    assert [] + times == times;
    Starves(h, subs, k, times);
  }

  lemma HonestPast(subs: seq<Subscription>, times: seq<int>, slow: nat, lo: int, earlier: seq<int>,
                   past: seq<seq<Item>>, w: World)
    requires DistinctSubs(subs) && slow <= |subs| && |times| > 1 && lo <= Earliest(subs, times, slow)
    requires Untroubled(subs, w)
    requires earlier == Seconds(lo, |earlier|) && past == PrimeLists(subs, times, slow, lo, |earlier|)
    ensures Honest(CONFIG, earlier, past, map[], w)
  {
    forall p | 0 <= p < |past|
      ensures ReadFrom(past[p], Before(CONFIG, earlier, past, map[], w, p).1.db)
    {
      PrimedHistory(subs, times, slow, lo, earlier, past, p, w);
      PrimeListHonest(subs, times, slow, earlier[p], past[p], Before(CONFIG, earlier, past, map[], w, p).1);
    }
  }

  /** After a history that leaves `slow` new and the indices before it primed. */
  lemma StarvedLater(subs: seq<Subscription>, k: nat, times: seq<int>, lists: seq<seq<Item>>, slow: nat)
      returns (h: History)
    requires DistinctSubs(subs) && slow < k < |subs| && |times| == |lists| == k + 1 && Ordered(times)
    requires lists == BusyLists(subs, |lists|)
    requires Cadence(subs[slow]) <= times[k] - times[0] && forall i :: 0 <= i < slow ==> Cadence(subs[i]) > 1
    ensures Happens(h, subs, k, times) && !ReachedIn(h, subs, k, times)
  {
    var lo := Earliest(subs, times, slow);
    var earlier := Seconds(lo, times[0] - lo);
    var past := PrimeLists(subs, times, slow, lo, |earlier|);
    h := History(CONFIG, KnownWorld(subs), earlier, past, lists);
    PrimedHistory(subs, times, slow, lo, earlier, past, |past|, h.w);
    HonestPast(subs, times, slow, lo, earlier, past, h.w);
    StarvedWindow(subs, k, times, lists, slow, WindowStart(h).0, h.w);
    BusySteady(subs, k, lists);
    Starves(h, subs, k, times);
  }

  /** From such hints the whole window passes index k by. */
  lemma StarvedWindow(subs: seq<Subscription>, k: nat, times: seq<int>, lists: seq<seq<Item>>, slow: nat,
                      start: Hints, w: World)
    requires DistinctSubs(subs) && slow < k < |subs| && |times| == k + 1 && Ordered(times)
    requires lists == BusyLists(subs, k + 1)
    requires Start(start, subs, times, slow) && Untroubled(subs, w) && Cadence(subs[slow]) <= times[k] - times[0]
    requires forall i :: 0 <= i < slow ==> Cadence(subs[i]) > 1
    ensures Honest(CONFIG, times, lists, start, w) && !Reached(CONFIG, times, lists, start, w, subs[k].id)
  {
    forall p | 0 <= p < k + 1
      ensures ReadFrom(lists[p], Before(CONFIG, times, lists, start, w, p).1.db)
      ensures subs[k].id !in PassAt(CONFIG, times, lists, start, w, p).polled
    {
      var before := Before(CONFIG, times, lists, start, w, p);
      if p > 0 {
        var unpolled := AlwaysOnSchedule(subs, k, times, lists, slow, start, w, p);
        var e := SomethingIsDue(subs, k, times, slow, start, p, before.0, unpolled);
        var _ := BusyStep(subs, k, times[p], lists[p], before.0, before.1, e);
      } else {
        var _ := BusyStep(subs, k, times[0], lists[0], start, w, slow);
      }
      UntroubledIsHonest(subs, before.1);
    }
  }

  /** One earlier cadence that fits into the window is enough: some history starves index k. */
  lemma Starvation(subs: seq<Subscription>, k: nat, times: seq<int>, slow: nat)
    requires DistinctSubs(subs) && slow < k < |subs| && |times| == k + 1 && Ordered(times)
    requires Cadence(subs[slow]) <= times[k] - times[0]
    ensures !Guaranteed(subs, k, times)
  {
    var h: History;
    if i :| 0 <= i < k && Cadence(subs[i]) <= 1 {
      h := StarvedFromTheStart(subs, k, times, BusyLists(subs, k + 1), i);
    } else {
      h := StarvedLater(subs, k, times, BusyLists(subs, k + 1), slow);
    }
  }

  /** The claim that no family starves, with its exact condition. */
  lemma GuaranteedIff(subs: seq<Subscription>, k: nat, times: seq<int>)
    requires DistinctSubs(subs) && k < |subs| && |times| == k + 1 && Ordered(times)
    ensures Guaranteed(subs, k, times) <==> forall i :: 0 <= i < k ==> Cadence(subs[i]) > times[k] - times[0]
  {
    if i :| 0 <= i < k && Cadence(subs[i]) <= times[k] - times[0] {
      Starvation(subs, k, times, i);
    } else {
      forall h | Happens(h, subs, k, times)
        ensures ReachedIn(h, subs, k, times)
      {
        var now := WindowStart(h);
        BoundedWaiting(h.cfg, subs, k, times, h.lists, now.0, now.1);
      }
    }
  }
}

/**
 Over whole runs, nothing pi says changes what the runner spends: `Adapter.AgentOutputIndependence`
 carried through passes, restarts and operators (flow_runner/dispatcher.py:88-264).

 Two ledgers may differ in which turns are marked failed. The argument is that nothing ever reads that.
 */
module AgentBlindness {
  import opened Options
  import opened RecordLayer
  import opened Dispatching
  import opened Adapter
  import opened SpendBound

  predicate SameRow(a: RunRow, b: RunRow) {
    a.(status := b.status) == b && (a.status == Running <==> b.status == Running)
  }

  predicate SameRuns(a: seq<RunRow>, b: seq<RunRow>) {
    |a| == |b| && forall k :: 0 <= k < |a| ==> SameRow(a[k], b[k])
  }

  /** The same but for the verdicts on closed rows. */
  predicate SameDb(x: Records, y: Records) {
    x.drivers == y.drivers && SameRuns(x.runs, y.runs)
  }

  predicate SameWorld(x: World, y: World) {
    SameDb(x.db, y.db) && x.calls == y.calls
  }

  predicate SameStep(a: Step, b: Step) {
    a.state == b.state && SameWorld(a.w, b.w) && a.ending == b.ending && a.facts == b.facts
  }

  ghost predicate IsPiResult(r: Reply<RunResult>) {
    r.Got? && exists run :: RunPi(run) == r
  }

  /** The same look, or one that differs in a result of pi. */
  ghost predicate SameLook(a: Look, b: Look) {
    a.(agent := b.agent) == b && (a.agent == b.agent || (IsPiResult(a.agent) && IsPiResult(b.agent)))
  }

  // ----- requests --------------------------------------------------------------------------------

  lemma SameReport(cfg: Config, sub: Subscription, moved: bool, wire: Wire, x: Records, y: Records)
    requires SameDb(x, y)
    ensures var a, b := NoteProgress(cfg, sub, moved, wire, x), NoteProgress(cfg, sub, moved, wire, y);
            SameDb(a.0, b.0) && a.1 == b.1 && a.0.runs == x.runs && b.0.runs == y.runs
    ensures TurnFact(cfg, sub, moved, wire, x) == TurnFact(cfg, sub, moved, wire, y)
  {
  }

  lemma SameOpen(wire: Wire, row: RunRow, x: Records, y: Records)
    requires SameDb(x, y)
    ensures var a, b := Send(wire, x, HandleOpen(x, row)), Send(wire, y, HandleOpen(y, row));
            SameDb(a.0, b.0) && a.1 == b.1
  {
  }

  lemma SameClose(wire: Wire, run: nat, s: RunStatus, t: RunStatus, advanced: Option<int>, x: Records, y: Records)
    requires SameDb(x, y) && s != Running && t != Running
    ensures var a := Send(wire, x, HandleClose(x, run, s, advanced));
            var b := Send(wire, y, HandleClose(y, run, t, advanced));
            SameDb(a.0, b.0) && a.1 == b.1
  {
  }

  // ----- one dispatch ----------------------------------------------------------------------------

  lemma SameFailedCheck(cfg: Config, sub: Subscription, st: SubscriptionState, look: Look, x: World, y: World)
    requires SameWorld(x, y)
    ensures SameStep(FailedCheck(cfg, sub, st, look, x), FailedCheck(cfg, sub, st, look, y))
  {
    SameReport(cfg, sub, false, look.report, x.db, y.db);
    var x1, y1 := NoteProgress(cfg, sub, false, look.report, x.db), NoteProgress(cfg, sub, false, look.report, y.db);
    var row := RunRow(sub.id, Running, None, None, None);
    SameOpen(look.open, row, x1.0, y1.0);
    var x2, y2 := Send(look.open, x1.0, HandleOpen(x1.0, row)), Send(look.open, y1.0, HandleOpen(y1.0, row));
    if x2.1.Got? {
      SameClose(look.close, x2.1.value, Failed, Failed, None, x2.0, y2.0);
    }
  }

  lemma SameIdle(cfg: Config, sub: Subscription, st: SubscriptionState, reason: Option<string>, look: Look, x: World,
                 y: World)
    requires SameWorld(x, y)
    ensures SameStep(ReportIdle(cfg, sub, st, reason, look, x), ReportIdle(cfg, sub, st, reason, look, y))
  {
    var row := RunRow(sub.id, Running, Some(0), reason, None);
    SameOpen(look.open, row, x.db, y.db);
    var x1, y1 := Send(look.open, x.db, HandleOpen(x.db, row)), Send(look.open, y.db, HandleOpen(y.db, row));
    if x1.1.Got? {
      SameClose(look.close, x1.1.value, Skipped, Skipped, Some(0), x1.0, y1.0);
    }
  }

  lemma SameEvidence(queue: nat, a: Look, b: Look)
    requires SameLook(a, b) && a.agent.Got?
    ensures b.agent.Got?
    ensures Advanced(queue, a.recount, a.agent.value) == Advanced(queue, b.recount, b.agent.value)
    ensures Moved(queue, a, a.agent.value) == Moved(queue, b, b.agent.value)
  {
    if a.agent != b.agent {
      var p :| RunPi(p) == a.agent;
      var q :| RunPi(q) == b.agent;
      PiIsNotBelieved(queue, a, p);
      PiIsNotBelieved(queue, b, q);
    }
  }

  lemma SameTurn(cfg: Config, sub: Subscription, st: SubscriptionState, queue: nat, run: nat, a: Look, b: Look,
                 x: World, y: World)
    requires SameWorld(x, y) && SameLook(a, b)
    ensures SameStep(AgentTurn(cfg, sub, st, queue, run, a, x), AgentTurn(cfg, sub, st, queue, run, b, y))
  {
    if a.agent.Got? {
      SameEvidence(queue, a, b);
      var advanced, moved := Advanced(queue, a.recount, a.agent.value), Moved(queue, a, a.agent.value);
      SameReport(cfg, sub, moved, a.report, x.db, y.db);
      var x1, y1 := NoteProgress(cfg, sub, moved, a.report, x.db).0, NoteProgress(cfg, sub, moved, a.report, y.db).0;
      SameClose(a.close, run, if a.agent.value.ok then Succeeded else Failed,
                if b.agent.value.ok then Succeeded else Failed, advanced, x1, y1);
    }
  }

  /** From the open row to the end of the turn. */
  lemma SameWork(cfg: Config, sub: Subscription, st: SubscriptionState, a: Look, b: Look, x: World, y: World)
    requires SameWorld(x, y) && SameLook(a, b) && FindsWork(a)
    ensures SameStep(Dispatch(cfg, sub, st, a, x), Dispatch(cfg, sub, st, b, y))
  {
    var row := WorkRow(sub, a.queue.value);
    SameOpen(a.open, row, x.db, y.db);
    var x1, y1 := Send(a.open, x.db, HandleOpen(x.db, row)), Send(a.open, y.db, HandleOpen(y.db, row));
    if x1.1.Got? {
      SameTurn(cfg, sub, st, a.queue.value, x1.1.value, a, b, x.(db := x1.0), y.(db := y1.0));
    }
  }

  lemma FailedCheckIgnoresAgent(cfg: Config, sub: Subscription, st: SubscriptionState, a: Look, b: Look, w: World)
    requires a.(agent := b.agent) == b
    ensures FailedCheck(cfg, sub, st, a, w) == FailedCheck(cfg, sub, st, b, w)
  {
  }

  lemma IdleIgnoresAgent(cfg: Config, sub: Subscription, st: SubscriptionState, reason: Option<string>, a: Look,
                         b: Look, w: World)
    requires a.(agent := b.agent) == b
    ensures ReportIdle(cfg, sub, st, reason, a, w) == ReportIdle(cfg, sub, st, reason, b, w)
  {
  }

  lemma SameDispatch(cfg: Config, sub: Subscription, st: SubscriptionState, a: Look, b: Look, x: World, y: World)
    requires SameWorld(x, y) && SameLook(a, b)
    ensures SameStep(Dispatch(cfg, sub, st, a, x), Dispatch(cfg, sub, st, b, y))
  {
    if ChecksFail(a) {
      SameFailedCheck(cfg, sub, st, a, x, y);
      FailedCheckIgnoresAgent(cfg, sub, st, a, b, y);
    } else if IdleReason(a).Some? {
      SameIdle(cfg, sub, st, IdleReason(a).value, a, x, y);
      IdleIgnoresAgent(cfg, sub, st, IdleReason(a).value, a, b, y);
    } else if FindsWork(a) {
      SameWork(cfg, sub, st, a, b, x, y);
    }
  }

  // ----- passes and runs -------------------------------------------------------------------------

  ghost predicate SameItem(i: Item, j: Item) {
    i.sub == j.sub && i.cleared == j.cleared && SameLook(i.look, j.look)
  }

  ghost predicate SameItems(a: seq<Item>, b: seq<Item>) {
    |a| == |b| && forall k :: 0 <= k < |a| ==> SameItem(a[k], b[k])
  }

  predicate SamePass(p: Pass, q: Pass) {
    p.state == q.state && SameWorld(p.w, q.w) && p.rows == q.rows && p.polled == q.polled && p.facts == q.facts
  }

  lemma SameVisit(cfg: Config, now: int, i: Item, j: Item, state: Hints, x: World, y: World)
    requires SameItem(i, j) && SameWorld(x, y)
    ensures var v, u := VisitItem(cfg, now, i, state, x), VisitItem(cfg, now, j, state, y);
            SameWorld(v.w, u.w) && v.(w := u.w) == u
  {
    var x0, y0 := x.(db := ClearParks(x.db, i.cleared)), y.(db := ClearParks(y.db, j.cleared));
    SameDispatch(cfg, i.sub, Stamp(state, i.sub.id, now)[i.sub.id], i.look, j.look, x0, y0);
  }

  lemma {:induction false} SamePoll(cfg: Config, now: int, a: seq<Item>, b: seq<Item>, state: Hints, x: World, y: World)
    requires SameItems(a, b) && SameWorld(x, y)
    ensures SamePass(PollFrom(cfg, now, a, state, x), PollFrom(cfg, now, b, state, y))
    decreases |a|
  {
    if a != [] {
      var v, u := VisitItem(cfg, now, a[0], state, x), VisitItem(cfg, now, b[0], state, y);
      SameVisit(cfg, now, a[0], b[0], state, x, y);
      if !v.Stops() {
        SamePoll(cfg, now, a[1..], b[1..], v.state, v.w, u.w);
      }
    }
  }

  /** The same event, but for what pi did and said in it without making the adapter raise. */
  ghost predicate SameEvent(e: Event, f: Event) {
    e == f || (e.PassEvent? && f.PassEvent? && e.now == f.now && e.listing.Got? && f.listing.Got?
               && SameItems(e.listing.value, f.listing.value))
  }

  predicate SameSystem(a: System, b: System) {
    a.state == b.state && SameWorld(a.w, b.w) && a.facts == b.facts
  }

  lemma SameAdvance(cfg: Config, a: System, b: System, e: Event, f: Event)
    requires SameSystem(a, b) && SameEvent(e, f)
    ensures SameSystem(Advance(cfg, a, e), Advance(cfg, b, f))
  {
    if e.PassEvent? && e.listing.Got? {
      SamePoll(cfg, e.now, e.listing.value, f.listing.value, a.state, a.w, b.w);
    }
  }

  /** Two runs, through any restarts, lost requests and operators, that differ only in pi's exit codes,
      streams and self-reported numbers, make the same agent calls, keep the same counters and parks,
      write the same rows with the same advanced counts, and remember the same: only verdicts differ. */
  lemma {:induction false} SameRun(cfg: Config, a: System, b: System, events: seq<Event>, events': seq<Event>)
    requires SameSystem(a, b) && |events| == |events'|
    requires forall k :: 0 <= k < |events| ==> SameEvent(events[k], events'[k])
    ensures SameSystem(Run(cfg, a, events), Run(cfg, b, events'))
    decreases |events|
  {
    if events != [] {
      SameAdvance(cfg, a, b, events[0], events'[0]);
      SameRun(cfg, Advance(cfg, a, events[0]), Advance(cfg, b, events'[0]), events[1..], events'[1..]);
    }
  }
}

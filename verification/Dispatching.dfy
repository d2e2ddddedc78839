/**
 When to spend a run, and the record that one was spent (flow_runner/dispatcher.py).

 The functions give the meaning of every step as a value; the class `Dispatcher` carries the fields
 the source carries and is proved against them. One `Look` scripts everything the outside world does
 during one dispatch, so a statement about all looks is a statement about every environment.
 */
module Dispatching {
  import opened Options
  import opened RecordLayer

  /** What the adapter hands back. `detailKeys` are the keys of its free-form `detail`. */
  datatype RunResult = RunResult(ok: bool, itemsAdvanced: Option<int>, detailKeys: set<string>)

  datatype Config = Config(maxUnmoved: int, idleSeconds: int)

  /** A subscription as listed at the start of the pass. */
  datatype Subscription = Subscription(id: SubId, cadence: Option<int>, unmoved: nat, parked: bool)

  /** Scheduling hints, lost on every restart. */
  datatype SubscriptionState =
    SubscriptionState(lastPolled: Option<int>, lastIdleReport: Option<int>, lastIdleReason: Option<string>)

  const FRESH := SubscriptionState(None, None, None)

  type Hints = map<SubId, SubscriptionState>

  function Lookup(state: Hints, id: SubId): SubscriptionState {
    if id in state then state[id] else FRESH
  }

  /** `dict.setdefault` */
  function Touch(state: Hints, id: SubId): Hints {
    state[id := Lookup(state, id)]
  }

  /** `subscription.get("cadence_seconds") or 300` */
  function Cadence(sub: Subscription): int {
    var c := sub.cadence.GetOr(0);
    if c == 0 then 300 else c
  }

  predicate Due(sub: Subscription, st: SubscriptionState, now: int) {
    !sub.parked && (st.lastPolled.Some? ==> now - st.lastPolled.value >= Cadence(sub))
  }

  /** The outside world during one dispatch. A dispatch opens, closes and reports at most once. */
  datatype Look = Look(workflow: Reply<bool>, queue: Reply<nat>, idleNow: int, open: Wire,
                       marksBefore: Reply<(nat, nat)>, agent: Reply<RunResult>, recount: Reply<nat>,
                       marksAfter: Reply<(nat, nat)>, report: Wire, close: Wire)

  /** The workflow check or the queue count answers an error. */
  predicate ChecksFail(look: Look) {
    look.workflow.ApiFailure? || (look.workflow == Got(true) && look.queue.ApiFailure?)
  }

  /** The reason a look that finds nothing to do states; None when it does not get that far or finds work. */
  function IdleReason(look: Look): Option<Option<string>> {
    if look.workflow == Got(false) then Some(Some("approval_flow_missing"))
    else if look.workflow == Got(true) && look.queue == Got(0) then Some(None)
    else None
  }

  predicate FindsWork(look: Look) {
    look.workflow == Got(true) && look.queue.Got? && look.queue.value > 0
  }

  /** The records, and the agent calls made so far. */
  datatype World = World(db: Records, calls: seq<SubId>)

  /** What the spending theorems count. A turn is `Recorded` when the server accepted a driver state
      that says it moved nothing, `Reset` when it accepted one that says something moved, and
      `Unrecorded` when no driver state for it ever arrived. `Cleared` names the parks operators
      really lifted. */
  datatype Fact =
    | Turn(id: SubId)
    | Recorded(id: SubId)
    | Unrecorded(id: SubId)
    | Reset(id: SubId)
    | Cleared(ids: set<SubId>)

  datatype Ending = Returned(row: Option<nat>, spent: bool) | Raised

  datatype Step = Step(state: SubscriptionState, w: World, ending: Ending, facts: seq<Fact>)

  // ----- progress --------------------------------------------------------------------------------

  function NoteProgress(cfg: Config, sub: Subscription, moved: bool, wire: Wire, db: Records): (Records, Reply<()>) {
    var unmoved := if moved then 0 else sub.unmoved + 1;
    Send(wire, db, HandleReport(db, sub.id, unmoved, unmoved >= cfg.maxUnmoved))
  }

  predicate MarksGrew(before: Option<(nat, nat)>, after: Option<(nat, nat)>) {
    before.Some? && after.Some? && (after.value.0 > before.value.0 || after.value.1 > before.value.1)
  }

  /** Best effort: a failed count means "could not tell". */
  function Marks(reply: Reply<(nat, nat)>): Option<(nat, nat)> {
    if reply.Got? then Some(reply.value) else None
  }

  /** What left the queue, or the adapter's own claim when the queue could not be re-counted. */
  function Advanced(queue: nat, recount: Reply<nat>, result: RunResult): Option<int> {
    match recount
    case Got(remaining) => Some(if queue >= remaining then queue - remaining else 0)
    case _ => result.itemsAdvanced
  }

  predicate Moved(queue: nat, look: Look, result: RunResult) {
    var advanced := Advanced(queue, look.recount, result).GetOr(0);
    || MarksGrew(Marks(look.marksBefore), Marks(look.marksAfter))
    || ((look.recount.Got? || "queue_remaining" in result.detailKeys) && advanced > 0)
    || (result.ok && advanced > 0)
  }

  // ----- the three ways a dispatch can go --------------------------------------------------------

  /** `record_failed_check`: a row, best effort, that says the check failed. */
  function FailedRow(sub: Subscription, st: SubscriptionState, look: Look, w: World): Step {
    var (db1, openReply) := Send(look.open, w.db, HandleOpen(w.db, RunRow(sub.id, Running, None, None, None)));
    if openReply.Crash? then Step(st, w.(db := db1), Raised, [])
    else if openReply.ApiFailure? then Step(st, w.(db := db1), Returned(None, false), [])
    else
      var (db2, closeReply) := Send(look.close, db1, HandleClose(db1, openReply.value, Failed, None));
      if closeReply.Crash? then Step(st, w.(db := db2), Raised, [])
      else Step(st, w.(db := db2), Returned(if closeReply.Got? then Some(openReply.value) else None, false), [])
  }

  /** The branch of `dispatch` for a check that fails: the driver state first, then the row. */
  function FailedCheck(cfg: Config, sub: Subscription, st: SubscriptionState, look: Look, w: World): Step {
    var (db1, noted) := NoteProgress(cfg, sub, false, look.report, w.db);
    if noted.Crash? then Step(st, w.(db := db1), Raised, []) else FailedRow(sub, st, look, w.(db := db1))
  }

  /** Whether an idle look writes a row: a stated reason when it changes, a lifted one always, the
      plain heartbeat when its clock has run out. */
  predicate IdleIsNews(st: SubscriptionState, reason: Option<string>, now: int, every: int) {
    if reason.Some? then st.lastIdleReason != reason
    else st.lastIdleReason.Some? || st.lastIdleReport.None? || now - st.lastIdleReport.value >= every
  }

  function ReportIdle(cfg: Config, sub: Subscription, st: SubscriptionState, reason: Option<string>, look: Look,
                      w: World): Step
  {
    if !IdleIsNews(st, reason, look.idleNow, cfg.idleSeconds) then Step(st, w, Returned(None, false), [])
    else
      var st' := st.(lastIdleReport := Some(look.idleNow), lastIdleReason := reason);
      var (db1, openReply) := Send(look.open, w.db, HandleOpen(w.db, RunRow(sub.id, Running, Some(0), reason, None)));
      if !openReply.Got? then Step(st', w.(db := db1), Raised, [])
      else
        var (db2, closeReply) := Send(look.close, db1, HandleClose(db1, openReply.value, Skipped, Some(0)));
        Step(st', w.(db := db2), if closeReply.Got? then Returned(Some(openReply.value), false) else Raised, [])
  }

  /** Everything from the agent call on; `run` is the open ledger row. */
  function AgentTurn(cfg: Config, sub: Subscription, st: SubscriptionState, queue: nat, run: nat, look: Look,
                     w: World): Step
  {
    var called := w.(calls := w.calls + [sub.id]);
    var lost := Step(st, called, Raised, [Turn(sub.id), Unrecorded(sub.id)]);
    if !look.agent.Got? || look.recount.Crash? || look.marksAfter.Crash? then lost
    else
      var result := look.agent.value;
      var moved := Moved(queue, look, result);
      var (db1, noted) := NoteProgress(cfg, sub, moved, look.report, w.db);
      var facts := [Turn(sub.id), TurnFact(cfg, sub, moved, look.report, w.db)];
      if noted.Crash? then Step(st, called.(db := db1), Raised, facts)
      else
        var status := if result.ok then Succeeded else Failed;
        var advanced := Advanced(queue, look.recount, result);
        var (db2, closeReply) := Send(look.close, db1, HandleClose(db1, run, status, advanced));
        Step(st, called.(db := db2), if closeReply.Got? then Returned(Some(run), true) else Raised, facts)
  }

  function TurnFact(cfg: Config, sub: Subscription, moved: bool, wire: Wire, db: Records): Fact {
    var unmoved := if moved then 0 else sub.unmoved + 1;
    var handled := HandleReport(db, sub.id, unmoved, unmoved >= cfg.maxUnmoved).1;
    if !wire.Arrives() || handled != Got(()) then Unrecorded(sub.id)
    else if moved then Reset(sub.id)
    else Recorded(sub.id)
  }

  /** The ledger row opened for an agent turn. */
  function WorkRow(sub: Subscription, queue: nat): RunRow {
    RunRow(sub.id, Running, Some(queue), None, None)
  }

  function Dispatch(cfg: Config, sub: Subscription, st: SubscriptionState, look: Look, w: World): Step {
    if look.workflow.Crash? then Step(st, w, Raised, [])
    else if look.workflow.ApiFailure? then FailedCheck(cfg, sub, st, look, w)
    else if !look.workflow.value then ReportIdle(cfg, sub, st, Some("approval_flow_missing"), look, w)
    else if look.queue.Crash? then Step(st, w, Raised, [])
    else if look.queue.ApiFailure? then FailedCheck(cfg, sub, st, look, w)
    else if look.queue.value == 0 then ReportIdle(cfg, sub, st, None, look, w)
    else
      var row := WorkRow(sub, look.queue.value);
      var (db1, openReply) := Send(look.open, w.db, HandleOpen(w.db, row));
      if !openReply.Got? || look.marksBefore.Crash? then Step(st, w.(db := db1), Raised, [])
      else AgentTurn(cfg, sub, st, look.queue.value, openReply.value, look, w.(db := db1))
  }

  // ----- one pass over the tenant's subscriptions ------------------------------------------------

  /** One listed subscription, the world while it is looked at, and the parks operators clear before. */
  datatype Item = Item(sub: Subscription, look: Look, cleared: set<SubId>)

  predicate DistinctSubs(subs: seq<Subscription>) {
    forall i, j :: 0 <= i < j < |subs| ==> subs[i].id != subs[j].id
  }

  function Subs(items: seq<Item>): (subs: seq<Subscription>)
    ensures |subs| == |items| && forall i :: 0 <= i < |items| ==> subs[i] == items[i].sub
  {
    seq(|items|, i requires 0 <= i < |items| => items[i].sub)
  }

  /** The listing was read from these records: each subscription once, with its driver state. */
  ghost predicate ReadFrom(items: seq<Item>, db: Records) {
    && DistinctSubs(Subs(items))
    && forall i :: 0 <= i < |items| ==> var sub := items[i].sub;
         sub.id in db.drivers && (!sub.parked ==> db.drivers[sub.id] == Driver(sub.unmoved, false))
  }

  /** `rows` is None when the pass raised; `polled` are the subscriptions it got to, in order. */
  datatype Pass = Pass(state: Hints, w: World, rows: Option<seq<nat>>, polled: seq<SubId>, facts: seq<Fact>)

  function Lifted(db: Records, cleared: set<SubId>): Fact {
    Cleared(set id | id in cleared && id in db.drivers && db.drivers[id].parked)
  }

  /** The state with `id` stamped as polled at `now`. */
  function Stamp(state: Hints, id: SubId, now: int): Hints {
    state[id := Lookup(state, id).(lastPolled := Some(now))]
  }

  /** What looking at one listed subscription comes to; one that is not due is passed over. */
  datatype Visit = Visit(state: Hints, w: World, polled: seq<SubId>, ending: Ending, facts: seq<Fact>) {
    predicate Stops() { ending.Raised? || ending.spent }

    function Rows(): seq<nat>
      requires ending.Returned?
    {
      if ending.row.Some? then [ending.row.value] else []
    }
  }

  function VisitItem(cfg: Config, now: int, item: Item, state: Hints, w: World): Visit {
    var sub := item.sub;
    var w0 := w.(db := ClearParks(w.db, item.cleared));
    if !Due(sub, Lookup(state, sub.id), now) then
      Visit(if sub.parked then state else Touch(state, sub.id), w0, [], Returned(None, false),
            [Lifted(w.db, item.cleared)])
    else
      var stamped := Stamp(state, sub.id, now);
      var step := Dispatch(cfg, sub, stamped[sub.id], item.look, w0);
      Visit(stamped[sub.id := step.state], step.w, [sub.id], step.ending,
            [Lifted(w.db, item.cleared)] + step.facts)
  }

  function PollFrom(cfg: Config, now: int, items: seq<Item>, state: Hints, w: World): (p: Pass)
    decreases |items|
  {
    if items == [] then Pass(state, w, Some([]), [], [])
    else
      var v := VisitItem(cfg, now, items[0], state, w);
      if v.ending.Raised? then Pass(v.state, v.w, None, v.polled, v.facts)
      else if v.ending.spent then Pass(v.state, v.w, Some(v.Rows()), v.polled, v.facts)
      else
        var rest := PollFrom(cfg, now, items[1..], v.state, v.w);
        Pass(rest.state, rest.w, if rest.rows.Some? then Some(v.Rows() + rest.rows.value) else None,
             v.polled + rest.polled, v.facts + rest.facts)
  }

  /** What a caller sees of a pass that resumes with `recorded` already in hand. */
  function Resumed(recorded: seq<nat>, p: Pass): (Hints, World, Option<seq<nat>>) {
    (p.state, p.w, if p.rows.Some? then Some(recorded + p.rows.value) else None)
  }

  lemma ResumedFromTheStart(items: seq<Item>, p: Pass)
    ensures items[0..] == items && Resumed([], p) == (p.state, p.w, p.rows)
  {
    assert p.rows.Some? ==> [] + p.rows.value == p.rows.value;
  }

  lemma PollUnroll(cfg: Config, now: int, items: seq<Item>, k: nat, state: Hints, w: World, recorded: seq<nat>)
    requires k < |items|
    ensures var v := VisitItem(cfg, now, items[k], state, w);
            Resumed(recorded, PollFrom(cfg, now, items[k..], state, w))
            == if v.ending.Raised? then (v.state, v.w, None)
               else if v.ending.spent then (v.state, v.w, Some(recorded + v.Rows()))
               else Resumed(recorded + v.Rows(), PollFrom(cfg, now, items[k + 1..], v.state, v.w))
  {
    assert items[k..][0] == items[k] && items[k..][1..] == items[k + 1..];
    var v := VisitItem(cfg, now, items[k], state, w);
    if v.ending.Returned? && !v.ending.spent {
      var rest := PollFrom(cfg, now, items[k + 1..], v.state, v.w);
      if rest.rows.Some? {
        assert recorded + (v.Rows() + rest.rows.value) == recorded + v.Rows() + rest.rows.value;
      }
    }
  }

  /** The whole pass: a listing that answers an error is an unsubscription, not an incident. */
  function Poll(cfg: Config, now: int, listing: Reply<seq<Item>>, state: Hints, w: World): Pass {
    match listing
    case Got(items) => PollFrom(cfg, now, items, state, w)
    case ApiFailure => Pass(state, w, Some([]), [], [])
    case Crash => Pass(state, w, None, [], [])
  }

  // ----- the objects -----------------------------------------------------------------------------

  /** Records every request it is given, as `StubAdapter.calls` does. */
  class AgentAdapter {
    var calls: seq<SubId>

    constructor ()
      ensures calls == []
    {
      calls := [];
    }

    method Run(id: SubId, outcome: Reply<RunResult>) returns (reply: Reply<RunResult>)
      modifies this
      ensures calls == old(calls) + [id] && reply == outcome
    {
      calls := calls + [id];
      reply := outcome;
    }
  }

  class Dispatcher {
    const client: RecordStore
    const adapter: AgentAdapter
    const apiKey: string
    const cfg: Config
    var state: Hints

    constructor (client: RecordStore, adapter: AgentAdapter, apiKey: string, cfg: Config)
      ensures this.client == client && this.adapter == adapter && this.apiKey == apiKey && this.cfg == cfg
      ensures state == map[]
    {
      this.client := client;
      this.adapter := adapter;
      this.apiKey := apiKey;
      this.cfg := cfg;
      state := map[];
    }

    function Here(): World
      reads client, adapter
    {
      World(client.Db(), adapter.calls)
    }

    method StateFor(id: SubId) returns (st: SubscriptionState)
      modifies this
      ensures state == Touch(old(state), id) && st == Lookup(old(state), id)
    {
      if id !in state {
        state := state[id := FRESH];
      }
      st := state[id];
    }

    method IsDue(sub: Subscription, now: int) returns (due: bool)
      modifies this
      ensures due == Due(sub, Lookup(old(state), sub.id), now)
      ensures state == if sub.parked then old(state) else Touch(old(state), sub.id)
    {
      if sub.parked {
        return false;
      }
      var st := StateFor(sub.id);
      due := st.lastPolled.None? || now - st.lastPolled.value >= Cadence(sub);
    }

    method Note(sub: Subscription, moved: bool, wire: Wire) returns (reply: Reply<()>)
      modifies client
      ensures (client.Db(), reply) == NoteProgress(cfg, sub, moved, wire, old(client.Db()))
    {
      var unmoved := if moved then 0 else sub.unmoved + 1;
      reply := client.ReportDriverState(sub.id, unmoved, unmoved >= cfg.maxUnmoved, wire);
    }

    method RecordFailedCheck(sub: Subscription, look: Look) returns (ending: Ending)
      requires sub.id in state
      modifies client
      ensures var step := FailedRow(sub, state[sub.id], look, old(Here())); Here() == step.w && ending == step.ending
    {
      var openReply := client.OpenRun(RunRow(sub.id, Running, None, None, None), look.open);
      if !openReply.Got? {
        return if openReply.Crash? then Raised else Returned(None, false);
      }
      var closeReply := client.CloseRun(openReply.value, Failed, None, look.close);
      ending := if closeReply.Crash? then Raised
                else Returned(if closeReply.Got? then Some(openReply.value) else None, false);
    }

    method CheckFailed(sub: Subscription, look: Look) returns (ending: Ending)
      requires sub.id in state
      modifies client
      ensures var step := FailedCheck(cfg, sub, state[sub.id], look, old(Here()));
              Here() == step.w && ending == step.ending
    {
      var noted := Note(sub, false, look.report);
      if noted.Crash? {
        return Raised;
      }
      ending := RecordFailedCheck(sub, look);
    }

    method ReportIdleLook(sub: Subscription, reason: Option<string>, look: Look) returns (ending: Ending)
      requires sub.id in state
      modifies this, client
      ensures var step := ReportIdle(cfg, sub, old(state)[sub.id], reason, look, old(Here()));
              Here() == step.w && ending == step.ending && state == old(state)[sub.id := step.state]
    {
      var now := look.idleNow;
      var st := state[sub.id];
      if reason.Some? {
        if st.lastIdleReason == reason {
          return Returned(None, false);
        }
      } else if st.lastIdleReason.Some? {
      } else if st.lastIdleReport.Some? && now - st.lastIdleReport.value < cfg.idleSeconds {
        return Returned(None, false);
      }
      state := state[sub.id := st.(lastIdleReport := Some(now), lastIdleReason := reason)];
      var openReply := client.OpenRun(RunRow(sub.id, Running, Some(0), reason, None), look.open);
      if !openReply.Got? {
        return Raised;
      }
      var closeReply := client.CloseRun(openReply.value, Skipped, Some(0), look.close);
      ending := if closeReply.Got? then Returned(Some(openReply.value), false) else Raised;
    }

    method RunAgent(sub: Subscription, queue: nat, run: nat, look: Look) returns (ending: Ending)
      requires sub.id in state
      modifies client, adapter
      ensures var step := AgentTurn(cfg, sub, state[sub.id], queue, run, look, old(Here()));
              Here() == step.w && ending == step.ending
    {
      var reply := adapter.Run(sub.id, look.agent);
      if !reply.Got? {
        return Raised;
      }
      var result := reply.value;
      var advanced := result.itemsAdvanced;
      var recounted := "queue_remaining" in result.detailKeys;
      if look.recount.Crash? {
        return Raised;
      } else if look.recount.Got? {
        advanced := Some(if queue >= look.recount.value then queue - look.recount.value else 0);
        recounted := true;
      }
      if look.marksAfter.Crash? {
        return Raised;
      }
      var other := MarksGrew(Marks(look.marksBefore), Marks(look.marksAfter)) || (recounted && advanced.GetOr(0) > 0);
      var noted := Note(sub, other || (result.ok && advanced.GetOr(0) > 0), look.report);
      if noted.Crash? {
        return Raised;
      }
      var closeReply := client.CloseRun(run, if result.ok then Succeeded else Failed, advanced, look.close);
      ending := if closeReply.Got? then Returned(Some(run), true) else Raised;
    }

    method DispatchOne(sub: Subscription, look: Look) returns (ending: Ending)
      requires sub.id in state
      modifies this, client, adapter
      ensures var step := Dispatch(cfg, sub, old(state)[sub.id], look, old(Here()));
              Here() == step.w && ending == step.ending && state == old(state)[sub.id := step.state]
    {
      if look.workflow.Crash? {
        return Raised;
      } else if look.workflow.ApiFailure? {
        ending := CheckFailed(sub, look);
        return;
      } else if !look.workflow.value {
        ending := ReportIdleLook(sub, Some("approval_flow_missing"), look);
        return;
      }
      if look.queue.Crash? {
        return Raised;
      } else if look.queue.ApiFailure? {
        ending := CheckFailed(sub, look);
        return;
      } else if look.queue.value == 0 {
        ending := ReportIdleLook(sub, None, look);
        return;
      }
      var openReply := client.OpenRun(WorkRow(sub, look.queue.value), look.open);
      if !openReply.Got? || look.marksBefore.Crash? {
        return Raised;
      }
      ending := RunAgent(sub, look.queue.value, openReply.value, look);
    }

    method VisitOne(now: int, item: Item) returns (ending: Ending)
      modifies this, client, adapter
      ensures var v := VisitItem(cfg, now, item, old(state), old(Here()));
              state == v.state && Here() == v.w && ending == v.ending
    {
      client.OperatorsClear(item.cleared);
      var due := IsDue(item.sub, now);
      if !due {
        return Returned(None, false);
      }
      var id := item.sub.id;
      state := state[id := state[id].(lastPolled := Some(now))];
      assert state == Stamp(old(state), id, now);
      ending := DispatchOne(item.sub, item.look);
    }

    /** One pass; `rows` is None when it raised. */
    method PollOnce(now: int, listing: Reply<seq<Item>>) returns (rows: Option<seq<nat>>)
      modifies this, client, adapter
      ensures var p := Poll(cfg, now, listing, old(state), old(Here()));
              state == p.state && Here() == p.w && rows == p.rows
    {
      if !listing.Got? {
        return if listing.Crash? then None else Some([]);
      }
      var items := listing.value;
      var recorded: seq<nat> := [];
      ghost var whole := PollFrom(cfg, now, items, state, Here());
      ResumedFromTheStart(items, whole);
      for k := 0 to |items|
        invariant Resumed(recorded, PollFrom(cfg, now, items[k..], state, Here())) == (whole.state, whole.w, whole.rows)
      {
        PollUnroll(cfg, now, items, k, state, Here(), recorded);
        var ending := VisitOne(now, items[k]);
        if ending.Raised? {
          return None;
        }
        recorded := recorded + (if ending.row.Some? then [ending.row.value] else []);
        if ending.spent {
          return Some(recorded);
        }
      }
      assert items[|items|..] == [] && recorded + [] == recorded;
      rows := Some(recorded);
    }
  }
}

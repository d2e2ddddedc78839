/**
 What the idle rows of one subscription say over any run of looks and restarts
 (flow_runner/dispatcher.py:285-331).
 */
module IdleReports {
  import opened Options
  import opened RecordLayer
  import opened Dispatching

  /** An idle look at a subscription: no reason means its queue is empty. `arrives` is whether the row
      it writes, if it writes one, reaches the ledger. */
  datatype IdleEvent = Looked(reason: Option<string>, now: int, arrives: bool) | Restarted

  /** One attempt to write an idle row, and the process life it was made in. */
  datatype IdleRow = IdleRow(reason: Option<string>, at: int, life: nat, arrived: bool)

  datatype Trace = Trace(st: SubscriptionState, rows: seq<IdleRow>, life: nat, latest: Option<Option<string>>)

  const START := Trace(FRESH, [], 0, None)

  function Remember(st: SubscriptionState, reason: Option<string>, now: int): SubscriptionState {
    st.(lastIdleReport := Some(now), lastIdleReason := reason)
  }

  function Observe(tr: Trace, e: IdleEvent, every: int): Trace {
    match e
    case Restarted => tr.(st := FRESH, life := tr.life + 1)
    case Looked(reason, now, arrives) =>
      if IdleIsNews(tr.st, reason, now, every) then
        Trace(Remember(tr.st, reason, now), tr.rows + [IdleRow(reason, now, tr.life, arrives)], tr.life, Some(reason))
      else tr.(latest := Some(reason))
  }

  function ObserveAll(tr: Trace, events: seq<IdleEvent>, every: int): Trace
    decreases |events|
  {
    if events == [] then tr else ObserveAll(Observe(tr, events[0], every), events[1..], every)
  }

  // ----- the trace is what dispatching does ------------------------------------------------------

  /** The part of a hint idle reporting keeps; the rest is the cadence's. */
  function IdlePart(st: SubscriptionState): SubscriptionState {
    st.(lastPolled := None)
  }

  predicate IsIdleRow(row: RunRow, id: SubId) {
    row.sub == id && row.queueSize == Some(0)
  }

  lemma IdleObserves(cfg: Config, sub: Subscription, st: SubscriptionState, tr: Trace, reason: Option<string>,
                     look: Look, w: World)
    requires sub.id in w.db.drivers && tr.st == IdlePart(st)
    ensures var step := ReportIdle(cfg, sub, st, reason, look, w);
            var grew := |step.w.db.runs| > |w.db.runs|;
            var next := Observe(tr, Looked(reason, look.idleNow, look.open.Arrives()), cfg.idleSeconds);
            && step.state == next.st.(lastPolled := st.lastPolled)
            && (grew <==> |next.rows| > |tr.rows| && look.open.Arrives())
            && (grew ==> var row := step.w.db.runs[|w.db.runs|]; IsIdleRow(row, sub.id) && row.reason == reason)
  {
  }

  lemma FailedCheckIsNoIdleRow(cfg: Config, sub: Subscription, st: SubscriptionState, look: Look, w: World)
    ensures var step := FailedCheck(cfg, sub, st, look, w);
            step.state == st && (|step.w.db.runs| > |w.db.runs| ==> !IsIdleRow(step.w.db.runs[|w.db.runs|], sub.id))
  {
  }

  lemma TurnIsNoIdleRow(cfg: Config, sub: Subscription, st: SubscriptionState, queue: nat, run: nat, look: Look,
                        w: World, r: nat)
    requires r < |w.db.runs| && w.db.runs[r].queueSize != Some(0)
    ensures var step := AgentTurn(cfg, sub, st, queue, run, look, w);
            step.state == st && |step.w.db.runs| == |w.db.runs| && !IsIdleRow(step.w.db.runs[r], sub.id)
  {
  }

  /** Nothing but an idle dispatch touches the idle memory or adds an idle row, and an idle dispatch is one
      `Observe` step: the same memory, and a ledger row with the stated reason exactly when the step writes
      one that arrives. */
  lemma DispatchObserves(cfg: Config, sub: Subscription, st: SubscriptionState, tr: Trace, look: Look, w: World)
    requires sub.id in w.db.drivers && tr.st == IdlePart(st)
    ensures var step, idle := Dispatch(cfg, sub, st, look, w), IdleReason(look);
            var grew := |step.w.db.runs| > |w.db.runs|;
            if idle.None? then step.state == st && (grew ==> !IsIdleRow(step.w.db.runs[|w.db.runs|], sub.id))
            else
              var next := Observe(tr, Looked(idle.value, look.idleNow, look.open.Arrives()), cfg.idleSeconds);
              && step.state == next.st.(lastPolled := st.lastPolled)
              && (grew <==> |next.rows| > |tr.rows| && look.open.Arrives())
              && (grew ==> var row := step.w.db.runs[|w.db.runs|]; IsIdleRow(row, sub.id) && row.reason == idle.value)
  {
    if IdleReason(look).Some? {
      IdleObserves(cfg, sub, st, tr, IdleReason(look).value, look, w);
    } else if ChecksFail(look) {
      FailedCheckIsNoIdleRow(cfg, sub, st, look, w);
    } else if FindsWork(look) {
      var (db1, openReply) := Send(look.open, w.db, HandleOpen(w.db, WorkRow(sub, look.queue.value)));
      if openReply.Got? {
        TurnIsNoIdleRow(cfg, sub, st, look.queue.value, openReply.value, look, w.(db := db1), |w.db.runs|);
      }
    }
  }

  // ----- what the rows say -----------------------------------------------------------------------

  /** The newest row states the latest look's reason, and the memory of this life agrees with it. */
  ghost predicate SaysLatest(tr: Trace) {
    if tr.rows == [] then tr.latest.None? && tr.st.lastIdleReport.None? && tr.st.lastIdleReason.None?
    else
      var newest := tr.rows[|tr.rows| - 1];
      && tr.latest == Some(newest.reason) && newest.life <= tr.life
      && (if newest.life == tr.life
          then tr.st.lastIdleReport == Some(newest.at) && tr.st.lastIdleReason == newest.reason
          else tr.st.lastIdleReport.None? && tr.st.lastIdleReason.None?)
  }

  /** Two neighbouring rows of one life: never the same stated reason, and two plain heartbeats only
      `every` apart. */
  ghost predicate Spaced(rows: seq<IdleRow>, every: int) {
    forall k :: 0 < k < |rows| && rows[k - 1].life == rows[k].life && rows[k - 1].reason == rows[k].reason ==>
      rows[k].reason.None? && rows[k].at - rows[k - 1].at >= every
  }

  lemma {:induction false} RowsSayLatest(tr: Trace, events: seq<IdleEvent>, every: int)
    requires SaysLatest(tr) && Spaced(tr.rows, every)
    ensures var end := ObserveAll(tr, events, every); SaysLatest(end) && Spaced(end.rows, every)
    decreases |events|
  {
    if events != [] {
      RowsSayLatest(Observe(tr, events[0], every), events[1..], every);
    }
  }

  /** A look whose reason differs from the newest row's is always written, whatever the clock says; this
      is how a lifted reason gets out. */
  lemma ChangeIsReported(tr: Trace, reason: Option<string>, now: int, arrives: bool, every: int)
    requires SaysLatest(tr) && tr.rows != [] && tr.rows[|tr.rows| - 1].reason != reason
    ensures Observe(tr, Looked(reason, now, arrives), every).rows == tr.rows + [IdleRow(reason, now, tr.life, arrives)]
  {
  }

  // ----- rows that never arrive ------------------------------------------------------------------

  function Arrived(rows: seq<IdleRow>): seq<IdleRow> {
    if rows == [] then []
    else Arrived(rows[..|rows| - 1]) + if rows[|rows| - 1].arrived then [rows[|rows| - 1]] else []
  }

  lemma {:induction false} NothingArrivedIff(rows: seq<IdleRow>)
    ensures Arrived(rows) == [] <==> forall k :: 0 <= k < |rows| ==> !rows[k].arrived
  {
    if rows != [] {
      NothingArrivedIff(rows[..|rows| - 1]);
      assert rows == rows[..|rows| - 1] + [rows[|rows| - 1]];
    }
  }

  // ----- neighbours that repeat themselves -------------------------------------------------------

  /** The newest row is of this life or an earlier one, and of this life only if the memory is its. */
  predicate MemoryKnows(tr: Trace) {
    tr.rows == [] ||
    var newest := tr.rows[|tr.rows| - 1];
    && newest.life <= tr.life
    && (newest.life == tr.life ==>
          tr.st.lastIdleReport == Some(newest.at) && tr.st.lastIdleReason == newest.reason)
  }

  predicate LivesOrdered(rows: seq<IdleRow>) {
    forall j, k :: 0 <= j < k < |rows| ==> rows[j].life <= rows[k].life
  }

  ghost predicate Orderly(tr: Trace, every: int) {
    MemoryKnows(tr) && Spaced(tr.rows, every) && LivesOrdered(tr.rows)
  }

  lemma OneMoreRow(rows: seq<IdleRow>, row: IdleRow, every: int)
    requires Spaced(rows, every) && LivesOrdered(rows)
    requires rows != [] ==>
      var newest := rows[|rows| - 1];
      && newest.life <= row.life
      && (newest.life == row.life && newest.reason == row.reason ==> row.reason.None? && row.at - newest.at >= every)
    ensures Spaced(rows + [row], every) && LivesOrdered(rows + [row])
  {
  }

  lemma OrderlyNext(tr: Trace, e: IdleEvent, every: int)
    requires Orderly(tr, every)
    ensures Orderly(Observe(tr, e, every), every)
  {
    if e.Looked? && IdleIsNews(tr.st, e.reason, e.now, every) {
      OneMoreRow(tr.rows, IdleRow(e.reason, e.now, tr.life, e.arrives), every);
    }
  }

  /** Whatever was remembered at first. */
  lemma {:induction false} RowsKeepTheirDistance(tr: Trace, events: seq<IdleEvent>, every: int)
    requires Orderly(tr, every)
    ensures Orderly(ObserveAll(tr, events, every), every)
    decreases |events|
  {
    if events != [] {
      OrderlyNext(tr, events[0], every);
      RowsKeepTheirDistance(Observe(tr, events[0], every), events[1..], every);
    }
  }

  /** Two rows of one life state the same reason only with another one between them. */
  lemma RepeatNeedsAnother(rows: seq<IdleRow>, every: int, j: nat, k: nat)
    requires Spaced(rows, every) && LivesOrdered(rows) && j < k < |rows|
    requires rows[j].life == rows[k].life && rows[j].reason.Some? && rows[j].reason == rows[k].reason
    ensures j + 1 < k && rows[j + 1].reason != rows[j].reason
  {
  }

  /** Two heartbeats of one life, with nothing but heartbeats between them, are `every` apart for each. */
  lemma {:induction false} HeartbeatsKeepTheirDistance(rows: seq<IdleRow>, every: int, j: nat, k: nat)
    requires Spaced(rows, every) && LivesOrdered(rows) && j <= k < |rows| && rows[j].life == rows[k].life
    requires forall i :: j <= i <= k ==> rows[i].reason.None?
    ensures rows[k].at - rows[j].at >= (k - j) * every
  {
    if j < k {
      HeartbeatsKeepTheirDistance(rows, every, j, k - 1);
      assert (k - j) * every == (k - 1 - j) * every + every;
    }
  }

  /** Where the m-th row to arrive stands among all that were written. */
  function ArrivedAt(rows: seq<IdleRow>, m: nat): (k: nat)
    requires m < |Arrived(rows)|
    ensures k < |rows| && rows[k].arrived && rows[k] == Arrived(rows)[m]
  {
    var n := |rows| - 1;
    if rows[n].arrived && m == |Arrived(rows)| - 1 then n else ArrivedAt(rows[..n], m)
  }

  /** Rows that arrive next to each other have only lost ones between them. */
  lemma {:induction false} OnlyLostBetween(rows: seq<IdleRow>, m: nat)
    requires m + 1 < |Arrived(rows)|
    ensures ArrivedAt(rows, m) < ArrivedAt(rows, m + 1)
    ensures forall i :: ArrivedAt(rows, m) < i < ArrivedAt(rows, m + 1) ==> !rows[i].arrived
  {
    var n := |rows| - 1;
    if rows[n].arrived && m + 1 == |Arrived(rows)| - 1 {
      LastArrived(rows[..n]);
    } else {
      OnlyLostBetween(rows[..n], m);
    }
  }

  lemma {:induction false} LastArrived(rows: seq<IdleRow>)
    requires Arrived(rows) != []
    ensures forall i :: ArrivedAt(rows, |Arrived(rows)| - 1) < i < |rows| ==> !rows[i].arrived
  {
    if !rows[|rows| - 1].arrived {
      LastArrived(rows[..|rows| - 1]);
    }
  }

  /** A reason that stands next to itself in the ledger was written in two lives, or with a row that says
      otherwise lost in between. */
  lemma RepeatIsExplained(rows: seq<IdleRow>, every: int, m: nat)
    requires Spaced(rows, every) && LivesOrdered(rows) && m + 1 < |Arrived(rows)|
    requires Arrived(rows)[m].reason.Some? && Arrived(rows)[m].reason == Arrived(rows)[m + 1].reason
    ensures var j, k := ArrivedAt(rows, m), ArrivedAt(rows, m + 1);
            || rows[j].life < rows[k].life
            || (j + 1 < k && !rows[j + 1].arrived && rows[j + 1].reason != rows[j].reason)
  {
    var j, k := ArrivedAt(rows, m), ArrivedAt(rows, m + 1);
    OnlyLostBetween(rows, m);
    if rows[j].life == rows[k].life {
      RepeatNeedsAnother(rows, every, j, k);
    }
  }

  /** Both happen: the row of a lifted reason is lost. */
  lemma LostLiftRepeats(reason: string, every: int)
    ensures Arrived(ObserveAll(START, [Looked(Some(reason), 0, true), Looked(None, 1, false),
                                       Looked(Some(reason), 2, true)], every).rows)
            == [IdleRow(Some(reason), 0, 0, true), IdleRow(Some(reason), 2, 0, true)]
  {
    var first, last := Looked(Some(reason), 0, true), Looked(Some(reason), 2, true);
    ThreeLooks(first, Looked(None, 1, false), last, every);
    var a, b, c := IdleRow(Some(reason), 0, 0, true), IdleRow(None, 1, 0, false), IdleRow(Some(reason), 2, 0, true);
    ArrivedOneMore([], a);
    ArrivedOneMore([a], b);
    ArrivedOneMore([a, b], c);
  }

  /** Or the process restarts. */
  lemma RestartRepeats(reason: string, every: int)
    ensures Arrived(ObserveAll(START, [Looked(Some(reason), 0, true), Restarted,
                                       Looked(Some(reason), 2, true)], every).rows)
            == [IdleRow(Some(reason), 0, 0, true), IdleRow(Some(reason), 2, 1, true)]
  {
    ThreeLooks(Looked(Some(reason), 0, true), Restarted, Looked(Some(reason), 2, true), every);
    var a, b := IdleRow(Some(reason), 0, 0, true), IdleRow(Some(reason), 2, 1, true);
    ArrivedOneMore([], a);
    ArrivedOneMore([a], b);
  }

  lemma ArrivedOneMore(rows: seq<IdleRow>, row: IdleRow)
    ensures Arrived(rows + [row]) == Arrived(rows) + if row.arrived then [row] else []
  {
    assert (rows + [row])[..|rows|] == rows;
  }

  lemma ThreeLooks(a: IdleEvent, b: IdleEvent, c: IdleEvent, every: int)
    ensures ObserveAll(START, [a, b, c], every) == Observe(Observe(Observe(START, a, every), b, every), c, every)
  {
    assert [a, b, c][1..] == [b, c] && [b, c][1..] == [c] && [c][1..] == [];
    var one := Observe(START, a, every);
    assert ObserveAll(one, [b, c], every) == ObserveAll(Observe(one, b, every), [c], every);
  }

  // ----- which looks write, and which of them get through ----------------------------------------

  /** Look i is news to what the trace remembers by then. */
  predicate Writes(tr: Trace, events: seq<IdleEvent>, i: int, every: int) {
    && 0 <= i < |events| && events[i].Looked?
    && IdleIsNews(ObserveAll(tr, events[..i], every).st, events[i].reason, events[i].now, every)
  }

  predicate Overdue(st: SubscriptionState, now: int, every: int) {
    st.lastIdleReport.Some? && now - st.lastIdleReport.value >= every
  }

  lemma ObserveLast(tr: Trace, events: seq<IdleEvent>, i: nat, every: int)
    requires i < |events|
    ensures ObserveAll(tr, events[..i + 1], every) == Observe(ObserveAll(tr, events[..i], every), events[i], every)
  {
    assert events[..i + 1] == events[..i] + [events[i]] && [events[i]][1..] == [];
    ObserveAppend(tr, events[..i], [events[i]], every);
    assert ObserveAll(ObserveAll(tr, events[..i], every), [events[i]], every)
        == ObserveAll(Observe(ObserveAll(tr, events[..i], every), events[i], every), [], every);
  }

  /** A look writes exactly when it is the first of its process life, when its reason is not the one before
      it, or when it is a heartbeat that has come due; the very first is judged by what is remembered. */
  lemma WritesIff(tr: Trace, events: seq<IdleEvent>, i: nat, every: int)
    requires i < |events|
    ensures Writes(tr, events, i, every) <==>
      events[i].Looked? &&
      if i == 0 then IdleIsNews(tr.st, events[0].reason, events[0].now, every)
      else
        || events[i - 1].Restarted?
        || events[i - 1].reason != events[i].reason
        || (events[i].reason.None? && Overdue(ObserveAll(tr, events[..i], every).st, events[i].now, every))
  {
    if i == 0 {
      assert events[..0] == [];
    } else {
      ObserveLast(tr, events, i - 1, every);
    }
  }

  /** The newest look whose row was written and arrived; -1 when there is none. */
  function NewestThrough(tr: Trace, events: seq<IdleEvent>, every: int): (i: int)
    ensures -1 <= i < |events| && (i >= 0 ==> events[i].Looked?)
    decreases |events|
  {
    if events == [] then -1
    else
      var n := |events| - 1;
      if Writes(tr, events, n, every) && events[n].arrives then n else NewestThrough(tr, events[..n], every)
  }

  lemma {:induction false} NewestThroughIsNewest(tr: Trace, events: seq<IdleEvent>, j: int, every: int)
    requires NewestThrough(tr, events, every) <= j < |events|
    ensures Writes(tr, events, j, every) && events[j].arrives <==> 0 <= j == NewestThrough(tr, events, every)
    decreases |events|
  {
    if events != [] && j >= 0 {
      var n := |events| - 1;
      if j < n {
        assert events[..n][..j] == events[..j];
        NewestThroughIsNewest(tr, events[..n], j, every);
      }
    }
  }

  /** The reason of the latest look; None when nobody looked. */
  function LatestReason(events: seq<IdleEvent>): Option<Option<string>>
    decreases |events|
  {
    if events == [] then None
    else if events[|events| - 1].Looked? then Some(events[|events| - 1].reason)
    else LatestReason(events[..|events| - 1])
  }

  /** What arrived of a trace ends with the newest look that got through. */
  lemma {:induction false} TraceByLooks(tr: Trace, events: seq<IdleEvent>, every: int)
    requires tr.rows == [] && tr.latest.None?
    ensures var end, i := ObserveAll(tr, events, every), NewestThrough(tr, events, every);
            var said := Arrived(end.rows);
            && end.latest == LatestReason(events) && (said == [] <==> i == -1)
            && (i >= 0 ==> said[|said| - 1].reason == events[i].reason)
    decreases |events|
  {
    if events != [] {
      var n := |events| - 1;
      var before := ObserveAll(tr, events[..n], every);
      TraceByLooks(tr, events[..n], every);
      ObserveLast(tr, events, n, every);
      assert events[..n + 1] == events;
      var rows := Observe(before, events[n], every).rows;
      if Writes(tr, events, n, every) {
        assert rows[..|rows| - 1] == before.rows;
      }
    }
  }

  /** The newest idle row to arrive tells the latest look's reason exactly when the newest look that got
      through had that reason. */
  lemma LedgerSaysLatest(tr: Trace, events: seq<IdleEvent>, every: int)
    requires tr.rows == [] && tr.latest.None?
    ensures var end, i := ObserveAll(tr, events, every), NewestThrough(tr, events, every);
            var said := Arrived(end.rows);
            said != [] && end.latest == Some(said[|said| - 1].reason) <==>
              0 <= i && LatestReason(events) == Some(events[i].reason)
  {
    TraceByLooks(tr, events, every);
  }

  // ----- a condition that stands -----------------------------------------------------------------

  /** Nothing but looks that state `reason`, and restarts. */
  predicate Stands(events: seq<IdleEvent>, reason: string) {
    forall i :: 0 <= i < |events| ==> events[i].Restarted? || events[i].reason == Some(reason)
  }

  /** Look i is the first of its process life, or the first of all and the memory does not hold the reason. */
  predicate SpeaksUp(tr: Trace, reason: string, events: seq<IdleEvent>, i: int) {
    && 0 <= i < |events| && events[i].Looked?
    && if i == 0 then tr.st.lastIdleReason != Some(reason) else events[i - 1].Restarted?
  }

  /** The attempt of some life arrives. */
  ghost predicate SomebodySpeaks(tr: Trace, reason: string, events: seq<IdleEvent>) {
    exists i :: SpeaksUp(tr, reason, events, i) && events[i].arrives
  }

  /** The rows `rows` adds to `old'`, all stating `reason`. */
  ghost predicate Adds(old': seq<IdleRow>, rows: seq<IdleRow>, reason: string) {
    old' <= rows && forall k :: |old'| <= k < |rows| ==> rows[k].reason == Some(reason)
  }

  ghost predicate SomeArrived(rows: seq<IdleRow>, from: nat) {
    exists k :: from <= k < |rows| && rows[k].arrived
  }

  /** The memory is stamped before the row is written, so a standing reason gets one attempt a life and no
      more: it reaches the ledger if and only if the attempt of some life arrives. */
  lemma {:induction false} StandingIsSaidIff(tr: Trace, reason: string, events: seq<IdleEvent>, every: int)
    requires Stands(events, reason)
    ensures var rows := ObserveAll(tr, events, every).rows;
            && Adds(tr.rows, rows, reason)
            && (SomeArrived(rows, |tr.rows|) <==> SomebodySpeaks(tr, reason, events))
    decreases |events|
  {
    if events != [] {
      var next := Observe(tr, events[0], every);
      StandingIsSaidIff(next, reason, events[1..], every);
      SpeaksUpNext(tr, next, reason, events, every);
      var rows := ObserveAll(next, events[1..], every).rows;
      SomeArrivedSplit(tr.rows, next.rows, rows);
      assert SomeArrived(next.rows, |tr.rows|) <==> SpeaksUp(tr, reason, events, 0) && events[0].arrives by {
        if SpeaksUp(tr, reason, events, 0) {
          assert next.rows[|tr.rows|].arrived == events[0].arrives;
        }
      }
    }
  }

  lemma SomeArrivedSplit(a: seq<IdleRow>, b: seq<IdleRow>, c: seq<IdleRow>)
    requires a <= b <= c
    ensures a <= c && (SomeArrived(c, |a|) <==> SomeArrived(b, |a|) || SomeArrived(c, |b|))
  {
    assert b == c[..|b|];
    if k :| |a| <= k < |b| && b[k].arrived {
      assert c[k].arrived;
    }
    if k :| |a| <= k < |c| && c[k].arrived {
      assert k < |b| ==> b[k].arrived;
    }
  }

  lemma SpeaksUpNext(tr: Trace, next: Trace, reason: string, events: seq<IdleEvent>, every: int)
    requires events != [] && Stands(events, reason) && next == Observe(tr, events[0], every)
    ensures SomebodySpeaks(tr, reason, events) <==>
      (SpeaksUp(tr, reason, events, 0) && events[0].arrives) || SomebodySpeaks(next, reason, events[1..])
  {
    if i :| SpeaksUp(tr, reason, events, i) && events[i].arrives && i > 0 {
      assert SpeaksUp(next, reason, events[1..], i - 1) && events[1..][i - 1].arrives;
    }
    if i :| SpeaksUp(next, reason, events[1..], i) && events[1..][i].arrives {
      assert SpeaksUp(tr, reason, events, i + 1) && events[i + 1].arrives;
    }
  }

  /** Within one life: one attempt, at the first look, unless the memory holds the reason already. */
  lemma {:induction false} OneAttemptALife(tr: Trace, reason: string, events: seq<IdleEvent>, every: int)
    requires Stands(events, reason) && forall i :: 0 <= i < |events| ==> events[i].Looked?
    ensures ObserveAll(tr, events, every).rows
            == tr.rows + if events == [] || tr.st.lastIdleReason == Some(reason) then []
                         else [IdleRow(Some(reason), events[0].now, tr.life, events[0].arrives)]
    decreases |events|
  {
    if events != [] {
      OneAttemptALife(Observe(tr, events[0], every), reason, events[1..], every);
    }
  }

  /** A reason whose row is lost stays out of the ledger for the rest of that life. */
  lemma LostReasonStaysUnsaid(tr: Trace, reason: string, now: int, looks: seq<IdleEvent>, every: int)
    requires tr.st.lastIdleReason != Some(reason)
    requires Stands(looks, reason) && forall i :: 0 <= i < |looks| ==> looks[i].Looked?
    ensures var end := ObserveAll(tr, [Looked(Some(reason), now, false)] + looks, every);
            Arrived(end.rows) == Arrived(tr.rows) && end.st.lastIdleReason == Some(reason)
  {
    var lost := [Looked(Some(reason), now, false)] + looks;
    OneAttemptALife(tr, reason, lost, every);
    var rows := ObserveAll(tr, lost, every).rows;
    assert rows[..|rows| - 1] == tr.rows;
    ReasonIsRemembered(tr, reason, lost, every);
  }

  lemma {:induction false} ReasonIsRemembered(tr: Trace, reason: string, looks: seq<IdleEvent>, every: int)
    requires Stands(looks, reason) && looks != [] && forall i :: 0 <= i < |looks| ==> looks[i].Looked?
    ensures ObserveAll(tr, looks, every).st.lastIdleReason == Some(reason)
    decreases |looks|
  {
    var next := Observe(tr, looks[0], every);
    if |looks| > 1 {
      ReasonIsRemembered(next, reason, looks[1..], every);
    } else {
      assert ObserveAll(next, looks[1..], every) == next;
    }
  }

  /** A restart brings it out: the first look of the new life is always an attempt. */
  lemma RestartSpeaksUp(tr: Trace, reason: string, now: int, arrives: bool, every: int)
    ensures ObserveAll(tr, [Restarted, Looked(Some(reason), now, arrives)], every).rows
            == tr.rows + [IdleRow(Some(reason), now, tr.life + 1, arrives)]
  {
    var again := [Restarted, Looked(Some(reason), now, arrives)];
    assert again[1..] == [again[1]] && again[1..][1..] == [];
    var end := Observe(Observe(tr, again[0], every), again[1], every);
    assert ObserveAll(tr, again, every) == ObserveAll(end, [], every);
  }

  lemma {:induction false} ObserveAppend(tr: Trace, a: seq<IdleEvent>, b: seq<IdleEvent>, every: int)
    ensures ObserveAll(tr, a + b, every) == ObserveAll(ObserveAll(tr, a, every), b, every)
    decreases |a|
  {
    if a == [] {
      assert a + b == b;
    } else {
      assert (a + b)[1..] == a[1..] + b;
      ObserveAppend(Observe(tr, a[0], every), a[1..], b, every);
    }
  }
}

/**
 The record layer as the flow runner sees it: the driver state kept on each subscription, the ledger
 of runs, and what can happen to one request on its way there and back.
 */
module RecordLayer {
  import opened Options

  type SubId = string

  /** What a client call ends in: an answer, an `ApiError`, or any other exception (a dropped
      connection raises `OSError`, which no handler in the dispatcher catches). */
  datatype Reply<+T> = Got(value: T) | ApiFailure | Crash

  /** The fate of one writing request. `ReplyLost` means the server acted and the runner never heard. */
  datatype Wire = Delivered | RequestLost(crash: bool) | ReplyLost(crash: bool) {
    predicate Arrives() { !RequestLost? }

    function Answer<T>(handled: Reply<T>): Reply<T> {
      match this
      case Delivered => handled
      case RequestLost(crash) => if crash then Crash else ApiFailure
      case ReplyLost(crash) => if crash then Crash else ApiFailure
    }
  }

  datatype Driver = Driver(unmoved: nat, parked: bool)

  datatype RunStatus = Running | Succeeded | Failed | Skipped

  datatype RunRow = RunRow(sub: SubId, status: RunStatus, queueSize: Option<nat>, reason: Option<string>,
                           advanced: Option<int>)

  datatype Records = Records(drivers: map<SubId, Driver>, runs: seq<RunRow>)

  /** The runner may raise its own stop, never lower it: that is answered 409 and changes nothing. */
  function HandleReport(db: Records, id: SubId, unmoved: nat, park: bool): (Records, Reply<()>) {
    if id !in db.drivers || (!park && db.drivers[id].parked) then (db, ApiFailure)
    else (db.(drivers := db.drivers[id := Driver(unmoved, park)]), Got(()))
  }

  function HandleOpen(db: Records, row: RunRow): (Records, Reply<nat>) {
    if row.sub !in db.drivers then (db, ApiFailure)
    else (db.(runs := db.runs + [row.(status := Running)]), Got(|db.runs|))
  }

  /** Terminal is terminal: a run that already finished is answered 409. */
  function HandleClose(db: Records, run: nat, status: RunStatus, advanced: Option<int>): (Records, Reply<()>) {
    if run >= |db.runs| || db.runs[run].status != Running then (db, ApiFailure)
    else (db.(runs := db.runs[run := db.runs[run].(status := status, advanced := advanced)]), Got(()))
  }

  /** One request: it changes the records exactly when it arrives. */
  function Send<T>(wire: Wire, db: Records, handled: (Records, Reply<T>)): (Records, Reply<T>) {
    (if wire.Arrives() then handled.0 else db, wire.Answer(handled.1))
  }

  /** What an operator, or a newly published definition, does to a parked subscription; on a
      subscription that is not parked both are no-ops. */
  function ClearPark(d: Driver): Driver {
    if d.parked then Driver(0, false) else d
  }

  function ClearParks(db: Records, ids: set<SubId>): Records {
    db.(drivers := map id | id in db.drivers :: if id in ids then ClearPark(db.drivers[id]) else db.drivers[id])
  }

  // ----- what the handlers promise ---------------------------------------------------------------

  /** The runner never clears its own stop: a report that would is refused, and changes nothing; any other
      about a known subscription is stored as it is, and nobody else's driver state moves. */
  lemma ParkNeverFalls(db: Records, id: SubId, unmoved: nat, park: bool)
    requires id in db.drivers
    ensures var (after, reply) := HandleReport(db, id, unmoved, park);
            && (db.drivers[id].parked ==> after.drivers[id].parked)
            && (reply.Got? <==> park || !db.drivers[id].parked)
            && after == if reply.Got? then db.(drivers := db.drivers[id := Driver(unmoved, park)]) else db
  {
  }

  /** Closing works on a running row only, and changes its status and count only. */
  lemma CloseAnswers(db: Records, run: nat, status: RunStatus, advanced: Option<int>)
    ensures var (after, reply) := HandleClose(db, run, status, advanced);
            && (reply.Got? <==> run < |db.runs| && db.runs[run].status == Running)
            && (!reply.Got? ==> after == db)
            && (reply.Got? ==>
                  after == db.(runs := db.runs[run := db.runs[run].(status := status, advanced := advanced)]))
  {
  }

  /** Terminal is terminal: a row that ended never ends again. */
  lemma EndsOnce(db: Records, run: nat, first: RunStatus, a: Option<int>, second: RunStatus, b: Option<int>)
    requires first != Running && run < |db.runs|
    ensures var after := HandleClose(db, run, first, a).0;
            HandleClose(after, run, second, b) == (after, ApiFailure)
  {
  }

  /** A row opened for a known subscription is a running one at the end, whatever else it says. */
  lemma OpenAnswers(db: Records, row: RunRow)
    ensures var (after, reply) := HandleOpen(db, row);
            if row.sub in db.drivers then
              reply == Got(|db.runs|) && after == db.(runs := db.runs + [row.(status := Running)])
            else reply == ApiFailure && after == db
  {
  }

  /** Lifting a park forgets the counter too, and a subscription that is not parked, or not named, keeps what
      it has. */
  lemma LiftedStartsOver(db: Records, ids: set<SubId>, id: SubId)
    requires id in db.drivers
    ensures var after := ClearParks(db, ids);
            && after.runs == db.runs && after.drivers.Keys == db.drivers.Keys
            && after.drivers[id] == if id in ids && db.drivers[id].parked then Driver(0, false) else db.drivers[id]
  {
  }

  /** A request acts exactly when it gets there, and is heard exactly when its answer comes back. */
  lemma SendActs<T>(wire: Wire, db: Records, handled: (Records, Reply<T>))
    ensures var (after, reply) := Send(wire, db, handled);
            && after == (if wire.RequestLost? then db else handled.0)
            && (if wire.Delivered? then reply == handled.1 else reply == if wire.crash then Crash else ApiFailure)
  {
  }

  /** The server's side of the conversation, updated request by request. */
  class RecordStore {
    var drivers: map<SubId, Driver>
    var runs: seq<RunRow>

    function Db(): Records
      reads this
    {
      Records(drivers, runs)
    }

    constructor (drivers: map<SubId, Driver>)
      ensures Db() == Records(drivers, [])
    {
      this.drivers := drivers;
      runs := [];
    }

    method ReportDriverState(id: SubId, unmoved: nat, park: bool, wire: Wire) returns (reply: Reply<()>)
      modifies this
      ensures (Db(), reply) == Send(wire, old(Db()), HandleReport(old(Db()), id, unmoved, park))
    {
      reply := ApiFailure;
      if wire.Arrives() {
        if id in drivers && (park || !drivers[id].parked) {
          drivers := drivers[id := Driver(unmoved, park)];
          reply := Got(());
        }
      }
      reply := wire.Answer(reply);
    }

    method OpenRun(row: RunRow, wire: Wire) returns (reply: Reply<nat>)
      modifies this
      ensures (Db(), reply) == Send(wire, old(Db()), HandleOpen(old(Db()), row))
    {
      reply := ApiFailure;
      if wire.Arrives() && row.sub in drivers {
        reply := Got(|runs|);
        runs := runs + [row.(status := Running)];
      }
      reply := wire.Answer(reply);
    }

    method CloseRun(run: nat, status: RunStatus, advanced: Option<int>, wire: Wire) returns (reply: Reply<()>)
      modifies this
      ensures (Db(), reply) == Send(wire, old(Db()), HandleClose(old(Db()), run, status, advanced))
    {
      reply := ApiFailure;
      if wire.Arrives() && run < |runs| && runs[run].status == Running {
        runs := runs[run := runs[run].(status := status, advanced := advanced)];
        reply := Got(());
      }
      reply := wire.Answer(reply);
    }

    /** Whatever operators commit while the runner is busy elsewhere. */
    method OperatorsClear(ids: set<SubId>)
      modifies this
      ensures Db() == ClearParks(old(Db()), ids)
    {
      drivers := map id | id in drivers :: if id in ids then ClearPark(drivers[id]) else drivers[id];
    }
  }
}

/**
 What a session can read and write under the installed policies, and that one tenant's session learns
 nothing of another's rows and changes none (alembic/versions/20260703_0012_enable_row_level_security.py:25-80).
 */
module Isolation {
  import opened Options
  import opened Collections
  import opened RowSecurity

  /** SQL's three-valued logic; a policy passes only on `Yes`. */
  datatype Truth = Yes | No | Unknown

  /** The two settings as `current_setting(…, true)` gives them: None is NULL, never set. */
  datatype Session = Session(tenant: Option<string>, platform: Option<string>)

  /** A tenant id as text; an identifier is never the empty string a reset setting reads as. */
  type TenantId = t: string | t != "" witness "0"

  datatype Row = Row(tenant: TenantId, data: string)

  function Equals(setting: Option<string>, value: string): Truth {
    if setting.None? then Unknown else if setting.value == value then Yes else No
  }

  function Eval(c: Condition, s: Session, row: Row): Truth {
    match c
    case Always => Yes
    case TenantMatch => Equals(s.tenant, row.tenant)
    case PlatformOn => Equals(s.platform, "on")
    case Either(a, b) =>
      var x, y := Eval(a, s, row), Eval(b, s, row);
      if x == Yes || y == Yes then Yes else if x == Unknown || y == Unknown then Unknown else No
  }

  predicate Holds(c: Option<Condition>, s: Session, row: Row) {
    c.Some? && Eval(c.value, s, row) == Yes
  }

  // ----- the rules of CREATE POLICY --------------------------------------------------------------

  predicate Applies(p: Policy, c: Command) {
    p.scope == ForAll || p.scope == For(c)
  }

  /** Some permissive policy for the command passes on a row already there. */
  predicate UsingPasses(ts: TableSecurity, c: Command, s: Session, row: Row) {
    exists n :: n in ts.policies && Applies(ts.policies[n], c) && Holds(ts.policies[n].using, s, row)
  }

  /** Some permissive policy for the command passes on a row to be written; a policy without `with check`
      is checked by its `using`. */
  predicate CheckPasses(ts: TableSecurity, c: Command, s: Session, row: Row) {
    exists n :: n in ts.policies && Applies(ts.policies[n], c) &&
      Holds(if ts.policies[n].check.Some? then ts.policies[n].check else ts.policies[n].using, s, row)
  }

  predicate CanSee(ts: TableSecurity, s: Session, row: Row) {
    !ts.enabled || UsingPasses(ts, Selecting, s, row)
  }

  /** UPDATE and DELETE read the rows they pick, so they need both policies. */
  predicate CanTouch(ts: TableSecurity, c: Command, s: Session, row: Row) {
    !ts.enabled || (UsingPasses(ts, c, s, row) && CanSee(ts, s, row))
  }

  /** What an UPDATE writes must stay visible too, because the statement reads the table. */
  predicate CanWrite(ts: TableSecurity, c: Command, s: Session, row: Row) {
    !ts.enabled || (CheckPasses(ts, c, s, row) && (c == Updating ==> CanSee(ts, s, row)))
  }

  // ----- what the policies of the migration come to ----------------------------------------------

  const STRICT := TableSecurity(true, STRICT_POLICIES)
  const AUTH := TableSecurity(true, AUTH_POLICIES)

  /** The upgrade of a table without policies leaves exactly one of these two, and running it again
      changes nothing. */
  lemma UpgradeInstalls(t: Table, enabled: bool)
    requires IsStrict(t) || IsAuth(t)
    ensures Secured(t, TableSecurity(enabled, map[])) == SecurityOf(t)
    ensures Secured(t, SecurityOf(t)) == SecurityOf(t)
  {
    TablesAreDistinct();
    assert map[] + STRICT_POLICIES == STRICT_POLICIES && STRICT_POLICIES + STRICT_POLICIES == STRICT_POLICIES;
    assert map[] + AUTH_POLICIES == AUTH_POLICIES && AUTH_POLICIES + AUTH_POLICIES == AUTH_POLICIES;
  }

  predicate IsBoundTo(s: Session, tenant: string) { s.tenant == Some(tenant) }

  predicate IsPlatform(s: Session) { s.platform == Some("on") }

  lemma MatchOrPlatform(s: Session, row: Row)
    ensures Eval(MATCH_OR_PLATFORM, s, row) == Yes <==> IsBoundTo(s, row.tenant) || IsPlatform(s)
  {
    assert Eval(TenantMatch, s, row) == Yes <==> IsBoundTo(s, row.tenant);
    assert Eval(PlatformOn, s, row) == Yes <==> IsPlatform(s);
  }

  /** Strict tables: read and delete take the tenant or the platform flag, writing takes the tenant. */
  lemma StrictRules(s: Session, row: Row)
    ensures var own, platform := IsBoundTo(s, row.tenant), IsPlatform(s);
            && (CanSee(STRICT, s, row) <==> own || platform)
            && (CanTouch(STRICT, Updating, s, row) <==> own || platform)
            && (CanTouch(STRICT, Deleting, s, row) <==> own || platform)
            && (CanWrite(STRICT, Inserting, s, row) <==> own)
            && (CanWrite(STRICT, Updating, s, row) <==> own)
  {
    MatchOrPlatform(s, row);
    assert "tenant_isolation" in STRICT.policies && STRICT.policies["tenant_isolation"] == TENANT_ISOLATION;
    assert forall n :: n in STRICT.policies ==> n == "tenant_isolation";
  }

  /** Authentication tables: anyone reads, nobody deletes. */
  lemma AuthRules(s: Session, row: Row)
    ensures var own, platform := IsBoundTo(s, row.tenant), IsPlatform(s);
            && CanSee(AUTH, s, row)
            && (CanTouch(AUTH, Updating, s, row) <==> own || platform)
            && !CanTouch(AUTH, Deleting, s, row)
            && (CanWrite(AUTH, Inserting, s, row) <==> own || platform)
            && (CanWrite(AUTH, Updating, s, row) <==> own || platform)
  {
    MatchOrPlatform(s, row);
    assert "auth_lookup" in AUTH.policies && AUTH.policies["auth_lookup"] == AUTH_LOOKUP;
    assert "tenant_insert" in AUTH.policies && AUTH.policies["tenant_insert"] == TENANT_INSERT;
    assert "tenant_update" in AUTH.policies && AUTH.policies["tenant_update"] == TENANT_UPDATE;
    assert forall n :: n in AUTH.policies ==> n in ["auth_lookup", "tenant_insert", "tenant_update"];
  }

  /** The migration's promise that strict writes always need the matching tenant covers what INSERT and
      UPDATE produce; a DELETE needs it exactly when the platform flag is off. */
  lemma DeleteNeedsTenantIff(s: Session)
    ensures (forall row :: CanTouch(STRICT, Deleting, s, row) ==> IsBoundTo(s, row.tenant)) <==> !IsPlatform(s)
  {
    forall row {
      StrictRules(s, row);
    }
    var foreign := Row(if s.tenant.Some? then s.tenant.value + "x" else "x", "");
    assert !IsBoundTo(s, foreign.tenant);
  }

  // ----- statements ------------------------------------------------------------------------------

  type Database = map<Table, seq<Row>>

  /** Everything a session can read. */
  type View = map<Table, seq<Row>>

  datatype Action =
    | Select(query: View -> seq<string>)
    | Insert(table: Table, rows: View -> seq<Row>)
    | Update(table: Table, change: View -> (Row -> Option<Row>))
    | Delete(table: Table, where: View -> (Row -> bool))

  /** A statement names the tables it reads, and may compute whatever it likes from what the session can
      see of them. */
  datatype Statement = Statement(sources: set<Table>, action: Action)

  datatype Outcome = Answer(rows: seq<string>) | Affected(count: nat) | Violation

  function Visible(ts: TableSecurity, s: Session, rows: seq<Row>): seq<Row> {
    if rows == [] then []
    else if CanSee(ts, s, rows[0]) then [rows[0]] + Visible(ts, s, rows[1..])
    else Visible(ts, s, rows[1..])
  }

  /** One row under an UPDATE: untouched, or what it becomes. */
  function Target(ts: TableSecurity, s: Session, change: Row -> Option<Row>, row: Row): Option<Row> {
    if CanTouch(ts, Updating, s, row) then change(row) else None
  }

  function Updated(ts: TableSecurity, s: Session, change: Row -> Option<Row>, rows: seq<Row>): seq<Row> {
    if rows == [] then []
    else [Target(ts, s, change, rows[0]).GetOr(rows[0])] + Updated(ts, s, change, rows[1..])
  }

  function UpdateCount(ts: TableSecurity, s: Session, change: Row -> Option<Row>, rows: seq<Row>): nat {
    if rows == [] then 0
    else (if Target(ts, s, change, rows[0]).Some? then 1 else 0) + UpdateCount(ts, s, change, rows[1..])
  }

  predicate UpdateAllowed(ts: TableSecurity, s: Session, change: Row -> Option<Row>, rows: seq<Row>) {
    forall k :: 0 <= k < |rows| ==>
      var to := Target(ts, s, change, rows[k]);
      to.Some? ==> CanWrite(ts, Updating, s, to.value)
  }

  predicate Deletes(ts: TableSecurity, s: Session, where: Row -> bool, row: Row) {
    CanTouch(ts, Deleting, s, row) && where(row)
  }

  function Remaining(ts: TableSecurity, s: Session, where: Row -> bool, rows: seq<Row>): seq<Row> {
    if rows == [] then []
    else if Deletes(ts, s, where, rows[0]) then Remaining(ts, s, where, rows[1..])
    else [rows[0]] + Remaining(ts, s, where, rows[1..])
  }

  predicate InsertAllowed(ts: TableSecurity, s: Session, rows: seq<Row>) {
    forall k :: 0 <= k < |rows| ==> CanWrite(ts, Inserting, s, rows[k])
  }

  /** A secured table's policies, and a database of exactly the secured tables. */
  function SecurityOf(t: Table): TableSecurity {
    if IsStrict(t) then STRICT else AUTH
  }

  ghost predicate IsDatabase(db: Database) {
    forall t :: t in db <==> IsStrict(t) || IsAuth(t)
  }

  function ViewOf(s: Session, db: Database, from: set<Table>): View {
    map t | t in db && t in from :: Visible(SecurityOf(t), s, db[t])
  }

  /** A violation aborts the statement and leaves everything as it was. */
  function Execute(s: Session, db: Database, stmt: Statement): (Database, Outcome) {
    var view := ViewOf(s, db, stmt.sources);
    match stmt.action
    case Select(query) => (db, Answer(query(view)))
    case Insert(t, rows) =>
      if t !in db || !InsertAllowed(SecurityOf(t), s, rows(view)) then (db, Violation)
      else (db[t := db[t] + rows(view)], Affected(|rows(view)|))
    case Update(t, change) =>
      if t !in db || !UpdateAllowed(SecurityOf(t), s, change(view), db[t]) then (db, Violation)
      else
        (db[t := Updated(SecurityOf(t), s, change(view), db[t])],
         Affected(UpdateCount(SecurityOf(t), s, change(view), db[t])))
    case Delete(t, where) =>
      if t !in db then (db, Violation)
      else
        var left := Remaining(SecurityOf(t), s, where(view), db[t]);
        (db[t := left], Affected(if |left| <= |db[t]| then |db[t]| - |left| else 0))
  }

  function ExecuteAll(s: Session, db: Database, stmts: seq<Statement>): (Database, seq<Outcome>) {
    if stmts == [] then (db, [])
    else
      var (db1, out) := Execute(s, db, stmts[0]);
      var (db2, outs) := ExecuteAll(s, db1, stmts[1..]);
      (db2, [out] + outs)
  }

  // ----- one tenant's rows and the others' -------------------------------------------------------

  function Own(a: string, rows: seq<Row>): seq<Row> {
    if rows == [] then []
    else if rows[0].tenant == a then [rows[0]] + Own(a, rows[1..])
    else Own(a, rows[1..])
  }

  function Others(a: string, rows: seq<Row>): seq<Row> {
    if rows == [] then []
    else if rows[0].tenant == a then Others(a, rows[1..])
    else [rows[0]] + Others(a, rows[1..])
  }

  /** A tenant's session: bound to it, platform flag off. */
  predicate TenantSession(s: Session, a: string) {
    IsBoundTo(s, a) && !IsPlatform(s)
  }

  lemma {:induction false} OwnConcat(a: string, x: seq<Row>, y: seq<Row>)
    ensures Own(a, x + y) == Own(a, x) + Own(a, y)
  {
    if x == [] {
      assert x + y == y;
    } else {
      assert (x + y)[0] == x[0] && (x + y)[1..] == x[1..] + y;
      OwnConcat(a, x[1..], y);
      Regroup([x[0]], Own(a, x[1..]), Own(a, y));
    }
  }

  lemma {:induction false} OthersConcat(a: string, x: seq<Row>, y: seq<Row>)
    ensures Others(a, x + y) == Others(a, x) + Others(a, y)
  {
    if x == [] {
      assert x + y == y;
    } else {
      assert (x + y)[0] == x[0] && (x + y)[1..] == x[1..] + y;
      OthersConcat(a, x[1..], y);
      Regroup([x[0]], Others(a, x[1..]), Others(a, y));
    }
  }

  lemma {:induction false} SeesItsOwn(s: Session, a: string, rows: seq<Row>)
    requires TenantSession(s, a)
    ensures Visible(STRICT, s, rows) == Own(a, rows)
  {
    if rows != [] {
      StrictRules(s, rows[0]);
      SeesItsOwn(s, a, rows[1..]);
    }
  }

  lemma TenantRules(t: Table, s: Session, a: string, row: Row)
    requires TenantSession(s, a)
    ensures var ts := SecurityOf(t);
            && (CanTouch(ts, Updating, s, row) || CanTouch(ts, Deleting, s, row) ==> row.tenant == a)
            && (CanWrite(ts, Inserting, s, row) ==> row.tenant == a)
            && (CanWrite(ts, Updating, s, row) ==> row.tenant == a)
  {
    StrictRules(s, row);
    AuthRules(s, row);
  }

  lemma {:induction false} InsertsItsOwn(t: Table, s: Session, a: string, rows: seq<Row>)
    requires TenantSession(s, a) && InsertAllowed(SecurityOf(t), s, rows)
    ensures Own(a, rows) == rows && Others(a, rows) == []
  {
    if rows != [] {
      TenantRules(t, s, a, rows[0]);
      InsertsItsOwn(t, s, a, rows[1..]);
    }
  }

  /** An UPDATE does to the whole table what it would do to the tenant's rows alone, and nothing else. */
  lemma {:induction false} UpdatesItsOwn(t: Table, s: Session, a: string, change: Row -> Option<Row>, rows: seq<Row>)
    requires TenantSession(s, a)
    ensures var ts := SecurityOf(t);
            && (UpdateAllowed(ts, s, change, rows) <==> UpdateAllowed(ts, s, change, Own(a, rows)))
            && UpdateCount(ts, s, change, rows) == UpdateCount(ts, s, change, Own(a, rows))
            && (UpdateAllowed(ts, s, change, rows) ==>
                  && Own(a, Updated(ts, s, change, rows)) == Updated(ts, s, change, Own(a, rows))
                  && Others(a, Updated(ts, s, change, rows)) == Others(a, rows))
  {
    if rows != [] {
      var ts := SecurityOf(t);
      TenantRules(t, s, a, rows[0]);
      var to := Target(ts, s, change, rows[0]);
      if to.Some? {
        TenantRules(t, s, a, to.value);
      }
      UpdatesItsOwn(t, s, a, change, rows[1..]);
      UpdateAllowedHead(ts, s, change, rows);
      assert Updated(ts, s, change, rows)[1..] == Updated(ts, s, change, rows[1..]);
      if rows[0].tenant == a {
        UpdateAllowedHead(ts, s, change, Own(a, rows));
        assert Own(a, rows)[1..] == Own(a, rows[1..]);
      }
    }
  }

  lemma UpdateAllowedHead(ts: TableSecurity, s: Session, change: Row -> Option<Row>, rows: seq<Row>)
    requires rows != []
    ensures var to := Target(ts, s, change, rows[0]);
            UpdateAllowed(ts, s, change, rows) <==>
              (to.Some? ==> CanWrite(ts, Updating, s, to.value)) && UpdateAllowed(ts, s, change, rows[1..])
  {
    assert rows == [rows[0]] + rows[1..];
  }

  lemma {:induction false} DeletesItsOwn(t: Table, s: Session, a: string, where: Row -> bool, rows: seq<Row>)
    requires TenantSession(s, a)
    ensures var ts := SecurityOf(t);
            && Own(a, Remaining(ts, s, where, rows)) == Remaining(ts, s, where, Own(a, rows))
            && Others(a, Remaining(ts, s, where, rows)) == Others(a, rows)
            && |rows| - |Remaining(ts, s, where, rows)| == |Own(a, rows)| - |Remaining(ts, s, where, Own(a, rows))|
            && |Remaining(ts, s, where, rows)| <= |rows|
  {
    if rows != [] {
      TenantRules(t, s, a, rows[0]);
      DeletesItsOwn(t, s, a, where, rows[1..]);
      var ts := SecurityOf(t);
      if !Deletes(ts, s, where, rows[0]) {
        assert Remaining(ts, s, where, rows)[1..] == Remaining(ts, s, where, rows[1..]);
      }
      if rows[0].tenant == a {
        assert Own(a, rows)[1..] == Own(a, rows[1..]);
      }
    }
  }

  // ----- noninterference -------------------------------------------------------------------------

  /** The same to tenant `a`, as far as it reads the tables `seen` and writes the tables `written`: the same
      rows of its own in all of them, and of the authentication tables it reads, which show everybody's, the
      same rows altogether. */
  ghost predicate SameFor(a: string, seen: set<Table>, written: set<Table>, x: Database, y: Database) {
    && IsDatabase(x) && IsDatabase(y)
    && (forall t :: t in seen + written && t in x ==> Own(a, x[t]) == Own(a, y[t]))
    && forall t :: t in seen && t in x && !IsStrict(t) ==> x[t] == y[t]
  }

  predicate Confined(seen: set<Table>, written: set<Table>, stmt: Statement) {
    && stmt.sources <= seen
    && (stmt.action.Select? || stmt.action.table in written)
  }

  lemma SameView(s: Session, a: string, seen: set<Table>, written: set<Table>, x: Database, y: Database,
                 from: set<Table>)
    requires TenantSession(s, a) && SameFor(a, seen, written, x, y) && from <= seen
    ensures ViewOf(s, x, from) == ViewOf(s, y, from)
  {
    forall t | t in x && t in from
      ensures Visible(SecurityOf(t), s, x[t]) == Visible(SecurityOf(t), s, y[t])
    {
      if IsStrict(t) {
        SeesItsOwn(s, a, x[t]);
        SeesItsOwn(s, a, y[t]);
      }
    }
  }

  /** One table of each database replaced. */
  lemma SameAfter(a: string, seen: set<Table>, written: set<Table>, x: Database, y: Database, t: Table,
                  u: seq<Row>, v: seq<Row>)
    requires SameFor(a, seen, written, x, y) && t in x
    requires Own(a, u) == Own(a, v) && (x[t] == y[t] ==> u == v)
    ensures SameFor(a, seen, written, x[t := u], y[t := v])
  {
  }

  lemma SameInsert(s: Session, a: string, seen: set<Table>, written: set<Table>, x: Database, y: Database, t: Table,
                   rows: seq<Row>)
    requires TenantSession(s, a) && SameFor(a, seen, written, x, y) && t in written && t in x
    ensures SameFor(a, seen, written, x[t := x[t] + rows], y[t := y[t] + rows])
  {
    OwnConcat(a, x[t], rows);
    OwnConcat(a, y[t], rows);
    SameAfter(a, seen, written, x, y, t, x[t] + rows, y[t] + rows);
  }

  lemma SameUpdate(s: Session, a: string, seen: set<Table>, written: set<Table>, x: Database, y: Database, t: Table,
                   change: Row -> Option<Row>)
    requires TenantSession(s, a) && SameFor(a, seen, written, x, y) && t in written && t in x
    ensures var ts := SecurityOf(t);
            && (UpdateAllowed(ts, s, change, x[t]) <==> UpdateAllowed(ts, s, change, y[t]))
            && UpdateCount(ts, s, change, x[t]) == UpdateCount(ts, s, change, y[t])
            && (UpdateAllowed(ts, s, change, x[t]) ==>
                  SameFor(a, seen, written, x[t := Updated(ts, s, change, x[t])], y[t := Updated(ts, s, change, y[t])]))
  {
    var ts := SecurityOf(t);
    UpdatesItsOwn(t, s, a, change, x[t]);
    UpdatesItsOwn(t, s, a, change, y[t]);
    if UpdateAllowed(ts, s, change, x[t]) {
      SameAfter(a, seen, written, x, y, t, Updated(ts, s, change, x[t]), Updated(ts, s, change, y[t]));
    }
  }

  lemma SameDelete(s: Session, a: string, seen: set<Table>, written: set<Table>, x: Database, y: Database, t: Table,
                   where: Row -> bool)
    requires TenantSession(s, a) && SameFor(a, seen, written, x, y) && t in written && t in x
    ensures var ts := SecurityOf(t);
            var u, v := Remaining(ts, s, where, x[t]), Remaining(ts, s, where, y[t]);
            |x[t]| - |u| == |y[t]| - |v| && |u| <= |x[t]| && SameFor(a, seen, written, x[t := u], y[t := v])
  {
    var ts := SecurityOf(t);
    DeletesItsOwn(t, s, a, where, x[t]);
    DeletesItsOwn(t, s, a, where, y[t]);
    SameAfter(a, seen, written, x, y, t, Remaining(ts, s, where, x[t]), Remaining(ts, s, where, y[t]));
  }

  /** One statement: same outcome, and the two databases stay the same to the tenant. */
  lemma StatementNoninterference(s: Session, a: string, seen: set<Table>, written: set<Table>, x: Database, y: Database,
                                 stmt: Statement)
    requires TenantSession(s, a) && SameFor(a, seen, written, x, y) && Confined(seen, written, stmt)
    ensures Execute(s, x, stmt).1 == Execute(s, y, stmt).1
    ensures SameFor(a, seen, written, Execute(s, x, stmt).0, Execute(s, y, stmt).0)
  {
    SameView(s, a, seen, written, x, y, stmt.sources);
    var view := ViewOf(s, x, stmt.sources);
    match stmt.action {
      case Select(_) =>
      case Insert(t, rows) => if t in x { SameInsert(s, a, seen, written, x, y, t, rows(view)); }
      case Update(t, change) => if t in x { SameUpdate(s, a, seen, written, x, y, t, change(view)); }
      case Delete(t, where) => if t in x { SameDelete(s, a, seen, written, x, y, t, where(view)); }
    }
  }

  /** Any sequence of statements. With strict tables only, two databases that agree on the tenant's own rows
      are told apart by nothing it can do. A blind write to an authentication table needs no more; only
      reading one, which shows everybody's rows, needs those to agree as well. */
  lemma {:induction false} Noninterference(s: Session, a: string, seen: set<Table>, written: set<Table>, x: Database,
                                           y: Database, stmts: seq<Statement>)
    requires TenantSession(s, a) && SameFor(a, seen, written, x, y)
    requires forall k :: 0 <= k < |stmts| ==> Confined(seen, written, stmts[k])
    ensures ExecuteAll(s, x, stmts).1 == ExecuteAll(s, y, stmts).1
    ensures SameFor(a, seen, written, ExecuteAll(s, x, stmts).0, ExecuteAll(s, y, stmts).0)
  {
    if stmts != [] {
      StatementNoninterference(s, a, seen, written, x, y, stmts[0]);
      Noninterference(s, a, seen, written, Execute(s, x, stmts[0]).0, Execute(s, y, stmts[0]).0, stmts[1..]);
    }
  }

  ghost predicate OthersUntouched(a: string, x: Database, y: Database) {
    x.Keys == y.Keys && forall t :: t in x ==> Others(a, x[t]) == Others(a, y[t])
  }

  lemma StatementLeavesOthers(s: Session, a: string, db: Database, stmt: Statement)
    requires TenantSession(s, a)
    ensures OthersUntouched(a, db, Execute(s, db, stmt).0)
  {
    var view := ViewOf(s, db, stmt.sources);
    match stmt.action {
      case Select(_) =>
      case Insert(t, rows) =>
        if t in db && InsertAllowed(SecurityOf(t), s, rows(view)) {
          InsertsItsOwn(t, s, a, rows(view));
          OthersConcat(a, db[t], rows(view));
        }
      case Update(t, change) =>
        if t in db {
          UpdatesItsOwn(t, s, a, change(view), db[t]);
        }
      case Delete(t, where) =>
        if t in db {
          DeletesItsOwn(t, s, a, where(view), db[t]);
        }
    }
  }

  /** Whatever a tenant's session does, every other tenant's rows stand, in every table. */
  lemma {:induction false} OthersStand(s: Session, a: string, db: Database, stmts: seq<Statement>)
    requires TenantSession(s, a)
    ensures OthersUntouched(a, db, ExecuteAll(s, db, stmts).0)
  {
    if stmts != [] {
      StatementLeavesOthers(s, a, db, stmts[0]);
      OthersStand(s, a, Execute(s, db, stmts[0]).0, stmts[1..]);
    }
  }

  // ----- interleaved sessions --------------------------------------------------------------------

  datatype Operation = Operation(session: Session, stmt: Statement)

  /** The outcomes of interleaved statements, each under its own session. */
  function ExecuteEach(db: Database, ops: seq<Operation>): (Database, seq<Outcome>) {
    if ops == [] then (db, [])
    else
      var (db1, out) := Execute(ops[0].session, db, ops[0].stmt);
      var (db2, outs) := ExecuteEach(db1, ops[1..]);
      (db2, [out] + outs)
  }

  /** A session bound to some tenant other than `a`, or to none; platform flag off. */
  predicate Elsewhere(s: Session, a: string) {
    !IsPlatform(s) && !IsBoundTo(s, a)
  }

  predicate Mixed(ops: seq<Operation>, a: string, seen: set<Table>, written: set<Table>) {
    forall k :: 0 <= k < |ops| ==>
      if IsBoundTo(ops[k].session, a) then !IsPlatform(ops[k].session) && Confined(seen, written, ops[k].stmt)
      else Elsewhere(ops[k].session, a)
  }

  /** The operations of tenant `a`, and their outcomes among all of them. */
  function OwnOps(ops: seq<Operation>, a: string): seq<Operation> {
    if ops == [] then []
    else if IsBoundTo(ops[0].session, a) then [ops[0]] + OwnOps(ops[1..], a)
    else OwnOps(ops[1..], a)
  }

  function OwnOutcomes(ops: seq<Operation>, outs: seq<Outcome>, a: string): seq<Outcome>
    requires |ops| == |outs|
  {
    if ops == [] then []
    else if IsBoundTo(ops[0].session, a) then [outs[0]] + OwnOutcomes(ops[1..], outs[1..], a)
    else OwnOutcomes(ops[1..], outs[1..], a)
  }

  lemma {:induction false} OneOutcomeEach(db: Database, ops: seq<Operation>)
    ensures |ExecuteEach(db, ops).1| == |ops|
  {
    if ops != [] {
      OneOutcomeEach(Execute(ops[0].session, db, ops[0].stmt).0, ops[1..]);
    }
  }

  /** Rows of `a` are among the others of anybody else. */
  lemma {:induction false} OwnAmongOthers(a: string, b: string, rows: seq<Row>)
    requires a != b
    ensures Own(a, Others(b, rows)) == Own(a, rows)
  {
    if rows != [] {
      OwnAmongOthers(a, b, rows[1..]);
      if rows[0].tenant != b {
        assert Others(b, rows)[1..] == Others(b, rows[1..]);
      }
    }
  }

  /** Somebody else's statement leaves the rows of `a` as they were. */
  lemma ElsewhereLeavesOwn(s: Session, a: string, db: Database, stmt: Statement, t: Table)
    requires Elsewhere(s, a) && t in db
    ensures t in Execute(s, db, stmt).0 && Own(a, Execute(s, db, stmt).0[t]) == Own(a, db[t])
    ensures Execute(s, db, stmt).0.Keys == db.Keys
  {
    var after := Execute(s, db, stmt).0;
    if Unbound(s) {
      UnboundStatement(s, db, stmt);
    } else {
      var b := s.tenant.value;
      StatementLeavesOthers(s, b, db, stmt);
      OwnAmongOthers(a, b, db[t]);
      OwnAmongOthers(a, b, after[t]);
    }
  }

  lemma SameBeside(s: Session, a: string, seen: set<Table>, written: set<Table>, x: Database, y: Database,
                   stmt: Statement)
    requires Elsewhere(s, a) && SameFor(a, seen, written, x, y) && forall t :: t in seen ==> !IsAuth(t)
    ensures SameFor(a, seen, written, Execute(s, x, stmt).0, y)
  {
    forall t | t in x {
      ElsewhereLeavesOwn(s, a, x, stmt, t);
    }
  }

  /** Any interleaving of tenants' sessions. As long as tenant `a` reads strict tables only, its statements
      come out, and leave its rows, as if nobody else had been there. */
  lemma {:induction false} InterleavingDoesNotShow(a: string, seen: set<Table>, written: set<Table>, x: Database,
                                                   y: Database, ops: seq<Operation>)
    requires SameFor(a, seen, written, x, y) && Mixed(ops, a, seen, written) && forall t :: t in seen ==> !IsAuth(t)
    ensures |ExecuteEach(x, ops).1| == |ops|
    ensures OwnOutcomes(ops, ExecuteEach(x, ops).1, a) == ExecuteEach(y, OwnOps(ops, a)).1
    ensures SameFor(a, seen, written, ExecuteEach(x, ops).0, ExecuteEach(y, OwnOps(ops, a)).0)
  {
    OneOutcomeEach(x, ops);
    if ops != [] {
      var s, stmt := ops[0].session, ops[0].stmt;
      var x1 := Execute(s, x, stmt).0;
      if IsBoundTo(s, a) {
        StatementNoninterference(s, a, seen, written, x, y, stmt);
        InterleavingDoesNotShow(a, seen, written, x1, Execute(s, y, stmt).0, ops[1..]);
        assert OwnOps(ops, a)[1..] == OwnOps(ops[1..], a);
      } else {
        SameBeside(s, a, seen, written, x, y, stmt);
        InterleavingDoesNotShow(a, seen, written, x1, y, ops[1..]);
      }
    }
  }

  // ----- sessions without a tenant, and the platform's -------------------------------------------

  /** Neither setting bound; a setting that was bound in an earlier transaction reads as empty. */
  predicate Unbound(s: Session) {
    (s.tenant.None? || s.tenant == Some("")) && !IsPlatform(s)
  }

  lemma {:induction false} UnboundTouchesNothing(t: Table, s: Session, rows: seq<Row>, change: Row -> Option<Row>,
                                                 where: Row -> bool)
    requires Unbound(s)
    ensures var ts := SecurityOf(t);
            && (IsStrict(t) ==> Visible(ts, s, rows) == [])
            && (InsertAllowed(ts, s, rows) ==> rows == [])
            && Updated(ts, s, change, rows) == rows && Remaining(ts, s, where, rows) == rows
  {
    if rows != [] {
      StrictRules(s, rows[0]);
      AuthRules(s, rows[0]);
      UnboundTouchesNothing(t, s, rows[1..], change, where);
    }
  }

  lemma UnboundStatement(s: Session, db: Database, stmt: Statement)
    requires Unbound(s)
    ensures Execute(s, db, stmt).0 == db
  {
    var view := ViewOf(s, db, stmt.sources);
    match stmt.action {
      case Select(_) =>
      case Insert(t, rows) =>
        UnboundTouchesNothing(t, s, rows(view), _ => None, _ => false);
        assert t in db && rows(view) == [] ==> db[t] + rows(view) == db[t];
      case Update(t, change) => if t in db { UnboundTouchesNothing(t, s, db[t], change(view), _ => false); }
      case Delete(t, where) => if t in db { UnboundTouchesNothing(t, s, db[t], _ => None, where(view)); }
    }
  }

  /** Default deny: an unbound session sees no row of any strict table and changes no row anywhere. */
  lemma {:induction false} UnboundChangesNothing(s: Session, db: Database, stmts: seq<Statement>)
    requires Unbound(s)
    ensures ExecuteAll(s, db, stmts).0 == db
    ensures forall t :: t in db && IsStrict(t) ==> Visible(SecurityOf(t), s, db[t]) == []
  {
    forall t | t in db && IsStrict(t) {
      UnboundTouchesNothing(t, s, db[t], _ => None, _ => false);
    }
    if stmts != [] {
      UnboundStatement(s, db, stmts[0]);
      UnboundChangesNothing(s, db, stmts[1..]);
    }
  }

  lemma {:induction false} UpdateWritesBound(s: Session, change: Row -> Option<Row>, rows: seq<Row>, row: Row)
    requires UpdateAllowed(STRICT, s, change, rows) && row in Updated(STRICT, s, change, rows)
    ensures row in rows || IsBoundTo(s, row.tenant)
  {
    var to := Target(STRICT, s, change, rows[0]);
    if to.Some? {
      StrictRules(s, to.value);
    }
    if row != to.GetOr(rows[0]) {
      UpdateAllowedHead(STRICT, s, change, rows);
      UpdateWritesBound(s, change, rows[1..], row);
    }
  }

  lemma {:induction false} RemainingAreOld(ts: TableSecurity, s: Session, where: Row -> bool, rows: seq<Row>, row: Row)
    requires row in Remaining(ts, s, where, rows)
    ensures row in rows
  {
    if row != rows[0] {
      RemainingAreOld(ts, s, where, rows[1..], row);
    }
  }

  /** Whatever the flags, a row a statement brings into a strict table carries the bound tenant. */
  lemma NewStrictRowsAreBound(s: Session, db: Database, stmt: Statement, t: Table, row: Row)
    requires t in db && IsStrict(t)
    requires t in Execute(s, db, stmt).0 && row in Execute(s, db, stmt).0[t]
    ensures row in db[t] || IsBoundTo(s, row.tenant)
  {
    var view := ViewOf(s, db, stmt.sources);
    match stmt.action {
      case Select(_) =>
      case Insert(u, rows) =>
        StrictRules(s, row);
      case Update(u, change) =>
        if u == t && row !in db[t] {
          UpdateWritesBound(s, change(view), db[t], row);
        }
      case Delete(u, where) =>
        if u == t {
          RemainingAreOld(STRICT, s, where(view), db[t], row);
        }
    }
  }

  /** Under this session an UPDATE can turn a row of another tenant into `to`. */
  predicate CanTake(s: Session, row: Row, to: Row) {
    !IsBoundTo(s, row.tenant) && CanTouch(STRICT, Updating, s, row) && CanWrite(STRICT, Updating, s, to)
  }

  lemma TakingIsAnUpdate(s: Session, row: Row, to: Row)
    requires CanTake(s, row, to)
    ensures var change := (r: Row) => Some(to);
            UpdateAllowed(STRICT, s, change, [row]) && Updated(STRICT, s, change, [row]) == [to]
  {
    assert Updated(STRICT, s, (r: Row) => Some(to), []) == [];
  }

  /** A session can take another tenant's row exactly when it is bound to a tenant and runs under the
      platform flag; the row it takes it as is then its own, so the write rule does not stop it. */
  lemma CanTakeIff(s: Session)
    ensures (exists row: Row, to: Row :: CanTake(s, row, to)) <==>
      IsPlatform(s) && s.tenant.Some? && s.tenant.value != ""
  {
    forall row: Row, to: Row | CanTake(s, row, to)
      ensures IsPlatform(s) && s.tenant == Some(to.tenant)
    {
      StrictRules(s, row);
      StrictRules(s, to);
    }
    if IsPlatform(s) && s.tenant.Some? && s.tenant.value != "" {
      var row, to := Row(s.tenant.value + "x", ""), Row(s.tenant.value, "");
      StrictRules(s, row);
      StrictRules(s, to);
      assert CanTake(s, row, to);
    }
  }

  /** Under the platform flag the reverse fails: a session bound to `a` can take a row of `b`, because the
      row it takes it as is `a`'s own. */
  lemma PlatformCanTakeARow(a: TenantId, b: TenantId, data: string)
    requires a != b
    ensures var s, take := Session(Some(a), Some("on")), (r: Row) => Some(Row(a, r.data));
            && UpdateAllowed(STRICT, s, take, [Row(b, data)])
            && Updated(STRICT, s, take, [Row(b, data)]) == [Row(a, data)]
  {
    var s := Session(Some(a), Some("on"));
    StrictRules(s, Row(b, data));
    StrictRules(s, Row(a, data));
  }
}

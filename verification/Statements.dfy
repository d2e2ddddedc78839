/**
 What each statement does to a secured table under any session, row by row and by tenants alone
 (alembic/versions/20260703_0012_enable_row_level_security.py:25-80). `Isolation` compares executions with
 each other; here each is compared with the rows it started from.
 */
module Statements {
  import opened Options
  import opened Collections
  import opened RowSecurity
  import opened Isolation

  predicate Own(s: Session, row: Row) { IsBoundTo(s, row.tenant) }

  /** Authentication tables show every row; strict ones the tenant's, or under the platform flag all. */
  predicate MayRead(t: Table, s: Session, row: Row) { !IsStrict(t) || Own(s, row) || IsPlatform(s) }

  predicate MayChange(s: Session, row: Row) { Own(s, row) || IsPlatform(s) }

  /** Nobody deletes from an authentication table. */
  predicate MayDelete(t: Table, s: Session, row: Row) { IsStrict(t) && MayChange(s, row) }

  /** The platform flag is no help in producing a strict row. */
  predicate MayWrite(t: Table, s: Session, row: Row) { Own(s, row) || (!IsStrict(t) && IsPlatform(s)) }

  lemma Rules(t: Table, s: Session, row: Row)
    ensures var ts := SecurityOf(t);
            && (CanSee(ts, s, row) <==> MayRead(t, s, row))
            && (CanTouch(ts, Updating, s, row) <==> MayChange(s, row))
            && (CanTouch(ts, Deleting, s, row) <==> MayDelete(t, s, row))
            && (CanWrite(ts, Inserting, s, row) <==> MayWrite(t, s, row))
            && (CanWrite(ts, Updating, s, row) <==> MayWrite(t, s, row))
  {
    StrictRules(s, row);
    AuthRules(s, row);
  }

  function CountRows(rows: seq<Row>, pick: Row -> bool): nat {
    if rows == [] then 0 else (if pick(rows[0]) then 1 else 0) + CountRows(rows[1..], pick)
  }

  lemma {:induction false} VisibleRows(t: Table, s: Session, rows: seq<Row>, r: Row)
    ensures multiset(Visible(SecurityOf(t), s, rows))[r] == if MayRead(t, s, r) then multiset(rows)[r] else 0
  {
    if rows != [] {
      Rules(t, s, rows[0]);
      MultisetHead(rows);
      VisibleRows(t, s, rows[1..], r);
      var rest := Visible(SecurityOf(t), s, rows[1..]);
      if MayRead(t, s, rows[0]) {
        MultisetCons(rows[0], rest);
      }
    }
  }

  lemma {:induction false} RemainingRows(t: Table, s: Session, where: Row -> bool, rows: seq<Row>, r: Row)
    ensures multiset(Remaining(SecurityOf(t), s, where, rows))[r]
            == if MayDelete(t, s, r) && where(r) then 0 else multiset(rows)[r]
  {
    if rows != [] {
      Rules(t, s, rows[0]);
      MultisetHead(rows);
      RemainingRows(t, s, where, rows[1..], r);
      var rest := Remaining(SecurityOf(t), s, where, rows[1..]);
      if !(MayDelete(t, s, rows[0]) && where(rows[0])) {
        MultisetCons(rows[0], rest);
      }
    }
  }

  lemma {:induction false} RemainingCount(t: Table, s: Session, where: Row -> bool, rows: seq<Row>)
    ensures |Remaining(SecurityOf(t), s, where, rows)| + CountRows(rows, r => MayDelete(t, s, r) && where(r)) == |rows|
  {
    if rows != [] {
      Rules(t, s, rows[0]);
      RemainingCount(t, s, where, rows[1..]);
    }
  }

  /** What an UPDATE makes of one row. */
  function Changed(s: Session, change: Row -> Option<Row>, row: Row): Row {
    if MayChange(s, row) then change(row).GetOr(row) else row
  }

  lemma {:induction false} UpdatedRows(t: Table, s: Session, change: Row -> Option<Row>, rows: seq<Row>)
    ensures var after := Updated(SecurityOf(t), s, change, rows);
            |after| == |rows| && forall k :: 0 <= k < |rows| ==> after[k] == Changed(s, change, rows[k])
    ensures UpdateCount(SecurityOf(t), s, change, rows)
            == CountRows(rows, r => MayChange(s, r) && change(r).Some?)
  {
    if rows != [] {
      Rules(t, s, rows[0]);
      UpdatedRows(t, s, change, rows[1..]);
    }
  }

  // ----- the four statements ---------------------------------------------------------------------

  /** A SELECT answers its query on the visible rows of the tables it names, and changes nothing. */
  lemma SelectDoes(s: Session, db: Database, sources: set<Table>, query: View -> seq<string>)
    ensures var view := ViewOf(s, db, sources);
            && Execute(s, db, Statement(sources, Select(query))) == (db, Answer(query(view)))
            && (forall t :: t in view <==> t in db && t in sources)
            && forall t, r :: t in view ==> multiset(view[t])[r] == if MayRead(t, s, r) then multiset(db[t])[r] else 0
  {
    var view := ViewOf(s, db, sources);
    forall t, r | t in view
      ensures multiset(view[t])[r] == if MayRead(t, s, r) then multiset(db[t])[r] else 0
    {
      VisibleRows(t, s, db[t], r);
    }
  }

  /** A DELETE takes exactly the rows it asks for and may delete, and says how many. */
  lemma DeleteDoes(s: Session, db: Database, sources: set<Table>, t: Table, where: View -> (Row -> bool))
    requires t in db
    ensures var (after, outcome) := Execute(s, db, Statement(sources, Delete(t, where)));
            var asked := where(ViewOf(s, db, sources));
            && after == db[t := after[t]]
            && (forall r :: multiset(after[t])[r] == if MayDelete(t, s, r) && asked(r) then 0 else multiset(db[t])[r])
            && outcome == Affected(CountRows(db[t], r => MayDelete(t, s, r) && asked(r)))
  {
    var asked := where(ViewOf(s, db, sources));
    var after := Execute(s, db, Statement(sources, Delete(t, where))).0;
    RemainingCount(t, s, asked, db[t]);
    forall r
      ensures multiset(after[t])[r] == if MayDelete(t, s, r) && asked(r) then 0 else multiset(db[t])[r]
    {
      RemainingRows(t, s, asked, db[t], r);
    }
  }

  /** An UPDATE turns exactly the rows it asks for and may change into what it says, in place, and says how
      many; if it may not write one of them it does nothing. */
  lemma UpdateDoes(s: Session, db: Database, sources: set<Table>, t: Table, change: View -> (Row -> Option<Row>))
    requires t in db
    ensures var (after, outcome) := Execute(s, db, Statement(sources, Update(t, change)));
            var asked, rows := change(ViewOf(s, db, sources)), db[t];
            if exists k :: 0 <= k < |rows| && MayChange(s, rows[k]) && asked(rows[k]).Some?
                           && !MayWrite(t, s, asked(rows[k]).value)
            then after == db && outcome == Violation
            else
              && after == db[t := after[t]] && |after[t]| == |rows|
              && (forall k :: 0 <= k < |rows| ==> after[t][k] == Changed(s, asked, rows[k]))
              && outcome == Affected(CountRows(rows, r => MayChange(s, r) && asked(r).Some?))
  {
    var asked, rows, ts := change(ViewOf(s, db, sources)), db[t], SecurityOf(t);
    UpdatedRows(t, s, asked, rows);
    forall k | 0 <= k < |rows|
      ensures (Target(ts, s, asked, rows[k]).Some? ==> CanWrite(ts, Updating, s, Target(ts, s, asked, rows[k]).value))
              <==> !(MayChange(s, rows[k]) && asked(rows[k]).Some? && !MayWrite(t, s, asked(rows[k]).value))
    {
      Rules(t, s, rows[k]);
      if asked(rows[k]).Some? {
        Rules(t, s, asked(rows[k]).value);
      }
    }
  }

  /** An INSERT adds its rows at the end, all of them or none. */
  lemma InsertDoes(s: Session, db: Database, sources: set<Table>, t: Table, rows: View -> seq<Row>)
    requires t in db
    ensures var asked := rows(ViewOf(s, db, sources));
            Execute(s, db, Statement(sources, Insert(t, rows)))
            == if forall k :: 0 <= k < |asked| ==> MayWrite(t, s, asked[k])
               then (db[t := db[t] + asked], Affected(|asked|)) else (db, Violation)
  {
    var asked := rows(ViewOf(s, db, sources));
    forall k | 0 <= k < |asked|
      ensures CanWrite(SecurityOf(t), Inserting, s, asked[k]) <==> MayWrite(t, s, asked[k])
    {
      Rules(t, s, asked[k]);
    }
  }
}

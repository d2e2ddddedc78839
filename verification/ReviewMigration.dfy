/**
 Giving old registrations a review status (alembic/versions/20260715_0020_add_registration_review.py:33-100).
 The status, review and update columns are new, so what they held before plays no part.
 */
module ReviewMigration {
  import opened Options
  import opened Registrations

  /** The two backfill updates: requests whose domain has a tenant first, then all that are left. */
  function Backfill(tenants: set<string>, r: Registration): Registration {
    var closed' := r.domain in tenants && r.consumed.Some?;
    r.(status := if closed' then Approved else PendingEmail, reviewed := if closed' then r.consumed else None,
       reason := None, updated := r.consumed.GetOr(r.created))
  }

  function BackfillAll(tenants: set<string>, rows: seq<Registration>): (after: seq<Registration>)
    ensures |after| == |rows| && forall i :: 0 <= i < |rows| ==> after[i] == Backfill(tenants, rows[i])
  {
    seq(|rows|, i requires 0 <= i < |rows| => Backfill(tenants, rows[i]))
  }

  /** Rejected as history; unlike the later migration this one leaves the secrets. */
  function Supersede(r: Registration, now: int): Registration {
    r.(status := Rejected, consumed := Some(r.consumed.GetOr(now)), reviewed := Some(r.reviewed.GetOr(now)),
       reason := Some(r.reason.GetOr("Superseded during registration review migration")), updated := now)
  }

  function SupersedeOlder(rows: seq<Registration>, now: int): (after: seq<Registration>)
    ensures |after| == |rows|
    ensures forall i :: 0 <= i < |rows| ==>
      after[i] == if IsActive(rows[i]) && RowNumber(rows, rows[i]) > 1 then Supersede(rows[i], now) else rows[i]
  {
    seq(|rows|, i requires 0 <= i < |rows| =>
      if IsActive(rows[i]) && RowNumber(rows, rows[i]) > 1 then Supersede(rows[i], now) else rows[i])
  }

  function Reviewed(tenants: set<string>, rows: seq<Registration>, now: int): (after: seq<Registration>)
    ensures |after| == |rows|
  {
    SupersedeOlder(BackfillAll(tenants, rows), now)
  }

  class ReviewTable {
    var rows: seq<Registration>

    constructor (rows: seq<Registration>)
      ensures this.rows == rows
    {
      this.rows := rows;
    }

    method Upgrade(tenants: set<string>, now: int)
      modifies this
      ensures rows == Reviewed(tenants, old(rows), now)
    {
      var before := rows;
      var joined := seq(|before|, i requires 0 <= i < |before| =>
        if before[i].domain !in tenants then (before[i], false)
        else
          var closed' := before[i].consumed.Some?;
          (before[i].(status := if closed' then Approved else PendingEmail,
                      reviewed := if closed' then before[i].consumed else None), true));
      var defaulted := seq(|joined|, i requires 0 <= i < |joined| =>
        var (r, known) := joined[i];
        var r' := if known then r else r.(status := PendingEmail, reviewed := None);
        r'.(reason := None, updated := r'.consumed.GetOr(r'.created)));
      assert defaulted == BackfillAll(tenants, before) by {
        forall i | 0 <= i < |before| ensures defaulted[i] == Backfill(tenants, before[i]) {
          var (r, known) := joined[i];
        }
      }
      rows := SupersedeOlder(defaulted, now);
    }
  }

  /** Used up already, by a workspace that exists. */
  predicate IsDone(tenants: set<string>, r: Registration) {
    r.domain in tenants && r.consumed.Some?
  }

  predicate Newer(a: Registration, b: Registration) {
    a.created > b.created || (a.created == b.created && a.id > b.id)
  }

  /** Of the requests of its domain that are not done, no newer one. */
  ghost predicate IsNewest(tenants: set<string>, rows: seq<Registration>, i: nat)
    requires i < |rows|
  {
    !IsDone(tenants, rows[i]) &&
    forall j :: 0 <= j < |rows| && !IsDone(tenants, rows[j]) && rows[j].domain == rows[i].domain ==>
      !Newer(rows[j], rows[i])
  }

  /** Row by row: a request is approved exactly when it was used up by a workspace that exists; of the
      rest of its domain, the newest waits for its email to be verified and every other is rejected. So a
      used-up request whose workspace is gone counts as open again. Nothing else about it changes. */
  lemma RowByRow(tenants: set<string>, rows: seq<Registration>, now: int, i: nat)
    requires i < |rows|
    ensures var before, after := rows[i], Reviewed(tenants, rows, now)[i];
            var touched := if before.consumed.Some? then before.consumed.value else before.created;
            after ==
              if IsDone(tenants, before) then
                before.(status := Approved, reviewed := before.consumed, reason := None, updated := touched)
              else if IsNewest(tenants, rows, i) then
                before.(status := PendingEmail, reviewed := None, reason := None, updated := touched)
              else
                before.(status := Rejected, consumed := if before.consumed.Some? then before.consumed else Some(now),
                        reviewed := Some(now), reason := Some("Superseded during registration review migration"),
                        updated := now)
  {
    var filled := BackfillAll(tenants, rows);
    FirstIff(filled, filled[i]);
    forall j | 0 <= j < |rows|
      ensures Ahead(filled[j], filled[i]) <==>
        !IsDone(tenants, rows[j]) && rows[j].domain == rows[i].domain && Newer(rows[j], rows[i])
    {
    }
  }

  lemma OneNewest(tenants: set<string>, rows: seq<Registration>, i: nat, j: nat)
    requires i < j < |rows| && rows[i].id != rows[j].id && IsNewest(tenants, rows, i) && IsNewest(tenants, rows, j)
    ensures rows[i].domain != rows[j].domain
  {
  }

  /** Both partial unique indexes can be built: one active request per domain, and so one per address as
      long as an address determines its domain. */
  lemma IndexesCanBeBuilt(tenants: set<string>, rows: seq<Registration>, now: int)
    requires DistinctIds(rows)
    requires forall i, j :: 0 <= i < j < |rows| && rows[i].email == rows[j].email ==> rows[i].domain == rows[j].domain
    ensures var after := Reviewed(tenants, rows, now);
            forall i, j :: 0 <= i < j < |after| && IsActive(after[i]) && IsActive(after[j]) ==>
              after[i].domain != after[j].domain && after[i].email != after[j].email
  {
    var after := Reviewed(tenants, rows, now);
    forall i, j | 0 <= i < j < |after| && IsActive(after[i]) && IsActive(after[j])
      ensures after[i].domain != after[j].domain && after[i].email != after[j].email
    {
      RowByRow(tenants, rows, now, i);
      RowByRow(tenants, rows, now, j);
      OneNewest(tenants, rows, i, j);
    }
  }
}

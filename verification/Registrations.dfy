/**
 Hardening the pending registrations: canonical domains, one active request per domain, no secrets kept
 on closed ones (alembic/versions/20260715_0021_harden_registration_secrets.py:23-75).
 */
module Registrations {
  import opened Options

  datatype Status = PendingEmail | PendingReview | Approved | Rejected

  /** Ids are ordered, as uuids are. */
  datatype Registration = Registration(id: int, email: string, domain: string, status: Status, created: int,
                                       consumed: Option<int>, reviewed: Option<int>, reason: Option<string>,
                                       password: Option<string>, token: Option<string>, updated: int)

  /** `registrable_domain`; None is its ValueError. */
  type Canon = string -> Option<string>

  const SUPERSEDED := "Superseded by canonical company-domain request"

  predicate IsActive(r: Registration) { r.status.PendingEmail? || r.status.PendingReview? }

  /** What the row loop makes of a stored domain. */
  function Canonical(canon: Canon, domain: string): string {
    var c := canon(domain).GetOr("");
    if c == "" then domain else c
  }

  /** A stored domain is replaced by what canonicalising makes of it, and kept when that fails or is empty. */
  lemma CanonicalIs(canon: Canon, domain: string)
    ensures Canonical(canon, domain) in {domain} + (if canon(domain).Some? then {canon(domain).value} else {})
    ensures Canonical(canon, domain) == domain <==> canon(domain) in {None, Some(""), Some(domain)}
  {
  }

  // ----- the three updates -----------------------------------------------------------------------

  function CanonicaliseOne(canon: Canon, r: Registration): Registration {
    if IsActive(r) then r.(domain := Canonical(canon, r.domain)) else r
  }

  function Canonicalise(canon: Canon, rows: seq<Registration>): (after: seq<Registration>)
    ensures |after| == |rows| && forall i :: 0 <= i < |rows| ==> after[i] == CanonicaliseOne(canon, rows[i])
  {
    seq(|rows|, i requires 0 <= i < |rows| => CanonicaliseOne(canon, rows[i]))
  }

  /** Ahead of `b` in the window: another active request for its domain, newer by (created_at, id). */
  predicate Ahead(a: Registration, b: Registration) {
    IsActive(a) && a.domain == b.domain && (a.created > b.created || (a.created == b.created && a.id > b.id))
  }

  /** `row_number() over (partition by email_domain order by created_at desc, id desc)` */
  function RowNumber(rows: seq<Registration>, r: Registration): nat {
    if rows == [] then 1 else RowNumber(rows[1..], r) + if Ahead(rows[0], r) then 1 else 0
  }

  function Reject(r: Registration, now: int): Registration {
    r.(status := Rejected, consumed := Some(r.consumed.GetOr(now)), reviewed := Some(r.reviewed.GetOr(now)),
       reason := Some(r.reason.GetOr(SUPERSEDED)),
       password := None, token := None, updated := now)
  }

  function RejectSuperseded(rows: seq<Registration>, now: int): (after: seq<Registration>)
    ensures |after| == |rows|
    ensures forall i :: 0 <= i < |rows| ==>
      after[i] == if IsActive(rows[i]) && RowNumber(rows, rows[i]) > 1 then Reject(rows[i], now) else rows[i]
  {
    seq(|rows|, i requires 0 <= i < |rows| =>
      if IsActive(rows[i]) && RowNumber(rows, rows[i]) > 1 then Reject(rows[i], now) else rows[i])
  }

  function Wipe(r: Registration): Registration {
    if IsActive(r) then r else r.(password := None, token := None)
  }

  function WipeSecrets(rows: seq<Registration>): (after: seq<Registration>)
    ensures |after| == |rows| && forall i :: 0 <= i < |rows| ==> after[i] == Wipe(rows[i])
  {
    seq(|rows|, i requires 0 <= i < |rows| => Wipe(rows[i]))
  }

  function Hardened(canon: Canon, rows: seq<Registration>, now: int): (after: seq<Registration>)
    ensures |after| == |rows|
  {
    WipeSecrets(RejectSuperseded(Canonicalise(canon, rows), now))
  }

  class RegistrationTable {
    var rows: seq<Registration>

    constructor (rows: seq<Registration>)
      ensures this.rows == rows
    {
      this.rows := rows;
    }

    /** The row loop over the requests that were active, then the ordered table updates. */
    method Upgrade(canon: Canon, now: int)
      modifies this
      ensures rows == Hardened(canon, old(rows), now)
    {
      var n := |rows|;
      for k := 0 to n
        invariant |rows| == n
        invariant forall i :: 0 <= i < n ==>
          rows[i] == if i < k then CanonicaliseOne(canon, old(rows)[i]) else old(rows)[i]
      {
        if IsActive(rows[k]) {
          var found := canon(rows[k].domain);
          var canonical := if found.None? then "" else found.value;
          if canonical != "" && canonical != rows[k].domain {
            rows := rows[k := rows[k].(domain := canonical)];
          }
        }
      }
      assert rows == Canonicalise(canon, old(rows));
      rows := RejectSuperseded(rows, now);
      rows := WipeSecrets(rows);
    }
  }

  // ----- who stays active ------------------------------------------------------------------------

  predicate DistinctIds(rows: seq<Registration>) {
    forall i, j :: 0 <= i < j < |rows| ==> rows[i].id != rows[j].id
  }

  lemma {:induction false} FirstIff(rows: seq<Registration>, r: Registration)
    ensures RowNumber(rows, r) >= 1
    ensures RowNumber(rows, r) == 1 <==> forall j :: 0 <= j < |rows| ==> !Ahead(rows[j], r)
  {
    if rows != [] {
      FirstIff(rows[1..], r);
      assert rows == [rows[0]] + rows[1..];
    }
  }

  /** The newest active request for the canonical domain of row i. */
  ghost predicate IsNewest(canon: Canon, rows: seq<Registration>, i: nat)
    requires i < |rows|
  {
    IsActive(rows[i]) &&
    forall j :: 0 <= j < |rows| ==> !Ahead(CanonicaliseOne(canon, rows[j]), CanonicaliseOne(canon, rows[i]))
  }

  /** Row by row: the newest request of each canonical domain stays active under that domain, every other
      active request is rejected, every closed one only loses its secrets, and nobody else keeps any. */
  lemma RowByRow(canon: Canon, rows: seq<Registration>, now: int, i: nat)
    requires i < |rows|
    ensures var before, after := rows[i], Hardened(canon, rows, now)[i];
            && after.id == before.id && after.created == before.created
            && (IsActive(after) <==> IsNewest(canon, rows, i))
            && (IsNewest(canon, rows, i) ==> after == before.(domain := Canonical(canon, before.domain)))
            && (IsActive(before) && !IsNewest(canon, rows, i) ==>
                  after == before.(domain := Canonical(canon, before.domain), status := Rejected,
                                   consumed := if before.consumed.Some? then before.consumed else Some(now),
                                   reviewed := if before.reviewed.Some? then before.reviewed else Some(now),
                                   reason := if before.reason.Some? then before.reason else Some(SUPERSEDED),
                                   password := None, token := None, updated := now))
            && (!IsActive(before) ==> after == before.(password := None, token := None))
            && (!IsActive(after) ==> after.password.None? && after.token.None?)
  {
    var canonical := Canonicalise(canon, rows);
    FirstIff(canonical, canonical[i]);
    if IsActive(rows[i]) && !IsNewest(canon, rows, i) {
      var j :| 0 <= j < |rows| && Ahead(CanonicaliseOne(canon, rows[j]), CanonicaliseOne(canon, rows[i]));
      assert Ahead(canonical[j], canonical[i]);
    }
  }

  /** Every canonical domain that had an active request has a newest one. */
  lemma NewestExists(canon: Canon, rows: seq<Registration>, i: nat) returns (best: nat)
    requires i < |rows| && IsActive(rows[i])
    ensures best < |rows| && IsNewest(canon, rows, best)
    ensures Canonical(canon, rows[best].domain) == Canonical(canon, rows[i].domain)
  {
    var canonical := Canonicalise(canon, rows);
    best := i;
    for k := 0 to |rows|
      invariant best < |rows| && IsActive(rows[best]) && canonical[best].domain == canonical[i].domain
      invariant forall j :: 0 <= j < k ==> !Ahead(canonical[j], canonical[best])
    {
      if Ahead(canonical[k], canonical[best]) {
        best := k;
      }
    }
  }

  /** Exactly one: the partial unique index on the active domains can be built. */
  lemma OneActivePerDomain(canon: Canon, rows: seq<Registration>, now: int)
    requires DistinctIds(rows)
    ensures var after := Hardened(canon, rows, now);
            && (forall i, j :: 0 <= i < j < |after| && IsActive(after[i]) && IsActive(after[j]) ==>
                 after[i].domain != after[j].domain)
            && forall i :: 0 <= i < |rows| && IsActive(rows[i]) ==>
                 exists k :: 0 <= k < |after| && IsActive(after[k])
                             && after[k].domain == Canonical(canon, rows[i].domain)
  {
    var after := Hardened(canon, rows, now);
    forall i | 0 <= i < |rows| {
      RowByRow(canon, rows, now, i);
    }
    forall i, j | 0 <= i < j < |after| && IsActive(after[i]) && IsActive(after[j])
      ensures after[i].domain != after[j].domain
    {
      var a, b := CanonicaliseOne(canon, rows[i]), CanonicaliseOne(canon, rows[j]);
      assert !Ahead(a, b) && !Ahead(b, a);
    }
    forall i | 0 <= i < |rows| && IsActive(rows[i])
      ensures exists k :: 0 <= k < |after| && IsActive(after[k]) && after[k].domain == Canonical(canon, rows[i].domain)
    {
      var k := NewestExists(canon, rows, i);
      assert IsActive(after[k]);
    }
  }

  // ----- running it again ------------------------------------------------------------------------

  /** The rows a second run would leave alone. */
  ghost predicate AtRest(canon: Canon, rows: seq<Registration>) {
    forall i :: 0 <= i < |rows| && IsActive(rows[i]) ==> Canonical(canon, rows[i].domain) == rows[i].domain
  }

  /** One active request per domain, and no secret on a closed one. */
  predicate Settled(rows: seq<Registration>) {
    && (forall i, j :: 0 <= i < j < |rows| && IsActive(rows[i]) && IsActive(rows[j]) ==>
         rows[i].domain != rows[j].domain)
    && forall i :: 0 <= i < |rows| && !IsActive(rows[i]) ==> rows[i].password.None? && rows[i].token.None?
  }

  lemma HardenedIsSettled(canon: Canon, rows: seq<Registration>, now: int)
    requires DistinctIds(rows)
    ensures Settled(Hardened(canon, rows, now))
  {
    var after := Hardened(canon, rows, now);
    OneActivePerDomain(canon, rows, now);
    forall i | 0 <= i < |after| && !IsActive(after[i])
      ensures after[i].password.None? && after[i].token.None?
    {
      RowByRow(canon, rows, now, i);
    }
  }

  lemma SettledRowStands(canon: Canon, rows: seq<Registration>, now: int, i: nat)
    requires Settled(rows) && AtRest(canon, rows) && i < |rows|
    ensures Hardened(canon, rows, now)[i] == rows[i]
  {
    RowByRow(canon, rows, now, i);
    if IsActive(rows[i]) {
      forall j | 0 <= j < |rows|
        ensures !Ahead(CanonicaliseOne(canon, rows[j]), CanonicaliseOne(canon, rows[i]))
      {
        if i != j && IsActive(rows[j]) {
          assert rows[j].domain != rows[i].domain;
        }
      }
      assert IsNewest(canon, rows, i);
    }
  }

  /** A second run changes nothing exactly when the domains the first one left active are canonical. */
  lemma SecondRunIsIdleIff(canon: Canon, rows: seq<Registration>, now: int, later: int)
    requires DistinctIds(rows)
    ensures var once := Hardened(canon, rows, now);
            Hardened(canon, once, later) == once <==> AtRest(canon, once)
  {
    var once := Hardened(canon, rows, now);
    HardenedIsSettled(canon, rows, now);
    if AtRest(canon, once) {
      forall i | 0 <= i < |once|
        ensures Hardened(canon, once, later)[i] == once[i]
      {
        SettledRowStands(canon, once, later, i);
      }
    } else {
      var i :| 0 <= i < |once| && IsActive(once[i]) && Canonical(canon, once[i].domain) != once[i].domain;
      RowByRow(canon, once, later, i);
    }
  }

  /** In particular when canonicalising twice is canonicalising once. */
  lemma IdempotentCanonIsEnough(canon: Canon, rows: seq<Registration>, now: int, later: int)
    requires DistinctIds(rows)
    requires forall d :: Canonical(canon, Canonical(canon, d)) == Canonical(canon, d)
    ensures Hardened(canon, Hardened(canon, rows, now), later) == Hardened(canon, rows, now)
  {
    var once := Hardened(canon, rows, now);
    forall i | 0 <= i < |once| && IsActive(once[i])
      ensures Canonical(canon, once[i].domain) == once[i].domain
    {
      RowByRow(canon, rows, now, i);
    }
    SecondRunIsIdleIff(canon, rows, now, later);
  }
}

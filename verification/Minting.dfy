/**
 Who ends up served, with which key, and how many credentials that costs, over any number of passes
 (flow_runner/bootstrap.py:70-156).
 */
module Minting {
  import opened Options
  import opened Jsons
  import opened Bootstrap

  predicate IsListed(rows: seq<Row>, t: TenantId) {
    exists k :: 0 <= k < |rows| && rows[k].tenant == t
  }

  /** The first row on which the control plane answers a request for `t` with a key. */
  function FirstKey(rows: seq<Row>, t: TenantId): Option<Key> {
    if rows == [] then None
    else if rows[0].tenant == t && rows[0].mint.Issued? then Some(rows[0].mint.key)
    else FirstKey(rows[1..], t)
  }

  function CountIssues(issues: seq<Issue>, i: Issue): nat {
    if issues == [] then 0
    else CountIssues(issues[..|issues| - 1], i) + if issues[|issues| - 1] == i then 1 else 0
  }

  lemma {:induction false} CountAppend(a: seq<Issue>, b: seq<Issue>, i: Issue)
    ensures CountIssues(a + b, i) == CountIssues(a, i) + CountIssues(b, i)
  {
    if b == [] {
      assert a + b == a;
    } else {
      assert (a + b)[..|a + b| - 1] == a + b[..|b| - 1];
      CountAppend(a, b[..|b| - 1], i);
    }
  }

  // ----- one pass --------------------------------------------------------------------------------

  /** A tenant already settled is not asked about again. */
  lemma {:induction false} AdmitSettled(a: Admission, remembered: Keys, rows: seq<Row>, t: TenantId)
    requires t in a.byTenant
    ensures var end := Admit(a, remembered, rows);
            && t in end.byTenant && end.byTenant[t] == a.byTenant[t]
            && (t in end.acquired <==> t in a.acquired) && (t in a.acquired ==> end.acquired[t] == a.acquired[t])
            && CountIssues(end.issues, Issue(t, true)) == CountIssues(a.issues, Issue(t, true))
    decreases |rows|
  {
    if rows != [] && !a.raised {
      AdmitSettled(AdmitOne(a, remembered, rows[0]), remembered, rows[1..], t);
    }
  }

  lemma ListedTail(rows: seq<Row>, t: TenantId)
    requires rows != []
    ensures IsListed(rows, t) <==> rows[0].tenant == t || IsListed(rows[1..], t)
  {
    if k :| 0 <= k < |rows[1..]| && rows[1..][k].tenant == t {
      assert rows[k + 1].tenant == t;
    }
    if k :| 0 < k < |rows| && rows[k].tenant == t {
      assert rows[1..][k - 1].tenant == t;
    }
  }

  /** A remembered key is taken up, and costs nothing. */
  lemma {:induction false} AdmitRemembered(a: Admission, remembered: Keys, rows: seq<Row>, t: TenantId)
    requires t !in a.byTenant && t !in a.acquired && t in remembered && !a.raised
    ensures var end := Admit(a, remembered, rows);
            && CountIssues(end.issues, Issue(t, true)) == CountIssues(a.issues, Issue(t, true))
            && (t in end.byTenant <==> t in end.acquired)
            && (t in end.byTenant ==> end.byTenant[t] == end.acquired[t] == remembered[t])
            && (!end.raised ==> (t in end.byTenant <==> IsListed(rows, t)))
    decreases |rows|
  {
    if rows != [] {
      var next := AdmitOne(a, remembered, rows[0]);
      ListedTail(rows, t);
      if rows[0].tenant == t {
        AdmitSettled(next, remembered, rows[1..], t);
      } else if !next.raised {
        AdmitRemembered(next, remembered, rows[1..], t);
      }
    }
  }

  /** A row that brings no key for `t` changes nothing about it. */
  lemma AdmitOneOther(a: Admission, remembered: Keys, row: Row, t: TenantId)
    requires t !in a.byTenant && t !in remembered && !(row.tenant == t && row.mint.Issued?)
    ensures var next := AdmitOne(a, remembered, row);
            && (t in next.byTenant <==> t in a.byTenant) && (t in next.acquired <==> t in a.acquired)
            && CountIssues(next.issues, Issue(t, true)) == CountIssues(a.issues, Issue(t, true))
  {
  }

  lemma AdmitOneFirst(a: Admission, remembered: Keys, row: Row, t: TenantId)
    requires t !in a.byTenant && t !in remembered && row.tenant == t && row.mint.Issued?
    ensures var next := AdmitOne(a, remembered, row);
            && t in next.byTenant && t in next.acquired && next.byTenant[t] == next.acquired[t] == row.mint.key
            && CountIssues(next.issues, Issue(t, true)) == CountIssues(a.issues, Issue(t, true)) + 1
  {
    CountAppend(a.issues, [Issue(t, true)], Issue(t, true));
    assert [Issue(t, true)][..0] == [];
  }

  /** A tenant nobody knows gets the first key the control plane answers with, and only that one. */
  lemma {:induction false} AdmitNew(a: Admission, remembered: Keys, rows: seq<Row>, t: TenantId)
    requires t !in a.byTenant && t !in a.acquired && t !in remembered && !a.raised
    ensures var end := Admit(a, remembered, rows);
            && CountIssues(end.issues, Issue(t, true))
               == CountIssues(a.issues, Issue(t, true)) + (if t in end.byTenant then 1 else 0)
            && (t in end.byTenant <==> t in end.acquired)
            && (t in end.byTenant ==> end.byTenant[t] == end.acquired[t] && FirstKey(rows, t) == Some(end.byTenant[t]))
            && (!end.raised ==> (t in end.byTenant <==> FirstKey(rows, t).Some?))
    decreases |rows|
  {
    if rows != [] {
      var next := AdmitOne(a, remembered, rows[0]);
      if rows[0].tenant == t && rows[0].mint.Issued? {
        AdmitOneFirst(a, remembered, rows[0], t);
        AdmitSettled(next, remembered, rows[1..], t);
      } else {
        AdmitOneOther(a, remembered, rows[0], t);
        if !next.raised {
          AdmitNew(next, remembered, rows[1..], t);
        }
      }
    }
  }

  lemma FirstKeyIsListed(rows: seq<Row>, t: TenantId)
    ensures FirstKey(rows, t).Some? ==>
      exists k :: 0 <= k < |rows| && rows[k].tenant == t && rows[k].mint == Issued(FirstKey(rows, t).value)
  {
    if rows != [] && !(rows[0].tenant == t && rows[0].mint.Issued?) && FirstKey(rows, t).Some? {
      FirstKeyIsListed(rows[1..], t);
      var k :| 0 <= k < |rows[1..]| && rows[1..][k].tenant == t && rows[1..][k].mint == Issued(FirstKey(rows, t).value);
      assert rows[k + 1] == rows[1..][k];
    }
  }

  /** What the runner knows about tenants from its state file. */
  function Memory(hasFile: bool, file: StateFile): Keys {
    if hasFile && Remembered(file).Some? then Remembered(file).value else map[]
  }

  /** The exact tenant set of a pass that completes: the operator's keys as written, then every listed
      workspace with a remembered key, then every other listed workspace the control plane answers for. */
  lemma WantedExactly(hasFile: bool, configured: seq<Credential>, listing: Listing, file: StateFile,
                      writing: Writing, t: TenantId)
    requires listing.Listed? && Resolve(hasFile, configured, listing, file, writing).wanted.Some?
    ensures var wanted := Resolve(hasFile, configured, listing, file, writing).wanted.value;
            var rows := listing.rows;
            var own, memory := ByTenant(configured), Memory(hasFile, file);
            && (t in wanted <==> || t in own
                                 || (t in memory && IsListed(rows, t))
                                 || (t !in memory && FirstKey(rows, t).Some?))
            && (t in wanted ==>
                  Some(wanted[t]) ==
                    if t in own then Some(own[t]) else if t in memory then Some(memory[t]) else FirstKey(rows, t))
  {
    var a := Admission(ByTenant(configured), map[], [], false);
    var rows, memory := listing.rows, Memory(hasFile, file);
    if t in a.byTenant {
      AdmitSettled(a, memory, rows, t);
    } else if t in memory {
      AdmitRemembered(a, memory, rows, t);
    } else {
      AdmitNew(a, memory, rows, t);
    }
  }

  /** What a completed pass writes: every listed workspace the runner has a key for that is not empty, under
      the key it is served with, and nothing of the operator's. */
  lemma FileHolds(configured: seq<Credential>, listing: Listing, file: StateFile, t: TenantId)
    requires listing.Listed? && Resolve(true, configured, listing, file, Written).wanted.Some?
    ensures var r := Resolve(true, configured, listing, file, Written);
            var memory, rows := Memory(true, file), listing.rows;
            && (t in Memory(true, r.file) <==>
                  && t !in ByTenant(configured)
                  && if t in memory then IsListed(rows, t) else FirstKey(rows, t).GetOr("") != "")
            && (t in Memory(true, r.file) ==> t in r.wanted.value && Memory(true, r.file)[t] == r.wanted.value[t])
  {
    var a := Admission(ByTenant(configured), map[], [], false);
    var rows, memory := listing.rows, Memory(true, file);
    if t in a.byTenant {
      AdmitSettled(a, memory, rows, t);
    } else if t in memory {
      AdmitRemembered(a, memory, rows, t);
    } else {
      AdmitNew(a, memory, rows, t);
    }
    SavedIsRemembered(Admit(a, memory, rows).acquired);
  }

  /** A pass that does not complete its listing, or has no file, leaves the file alone; one whose write fails
      leaves what the write leaves. */
  lemma FileStands(hasFile: bool, configured: seq<Credential>, listing: Listing, file: StateFile, writing: Writing)
    ensures var r := Resolve(hasFile, configured, listing, file, writing);
            && (!listing.Listed? || r.wanted.None? || !hasFile ==> r.file == file)
            && (listing.Listed? && r.wanted.Some? && hasFile && writing.NotWritten? ==> r.file == writing.leaves)
  {
  }

  /** What reading the file means, entry by entry: an object's non-empty strings; nothing, if it cannot be
      read or holds something falsy; and an exception for anything else. */
  lemma RememberedIff(file: StateFile, t: TenantId)
    ensures Remembered(file).None? <==> file.Holds? && !file.json.Obj? && file.json.Truthy()
    ensures t in Memory(true, file) <==>
      && file.Holds? && file.json.Obj? && t in file.json.fields && file.json.fields[t].Str?
      && file.json.fields[t].s != ""
    ensures t in Memory(true, file) ==> Memory(true, file)[t] == file.json.fields[t].s
  {
  }

  /** The operator's last line about `t`. */
  predicate LastLine(configured: seq<Credential>, t: TenantId, k: int) {
    && 0 <= k < |configured| && configured[k].tenant == t
    && forall j :: k < j < |configured| ==> configured[j].tenant != t
  }

  /** A listing that fails serves exactly the tenants the operator names, each under the last key written for
      it, issues nothing and forgets nothing: every workspace the runner had let itself into is dropped for
      that pass, whatever it remembers. */
  lemma FailedListing(hasFile: bool, configured: seq<Credential>, file: StateFile, writing: Writing, t: TenantId)
    ensures var r := Resolve(hasFile, configured, Unreachable, file, writing);
            && r.wanted.Some? && r.issues == [] && Memory(hasFile, r.file) == Memory(hasFile, file)
            && (t in r.wanted.value <==> exists k :: LastLine(configured, t, k))
            && forall k :: LastLine(configured, t, k) ==> r.wanted.value[t] == configured[k].key
  {
    OperatorsTenants(configured, t);
  }

  lemma {:induction false} OperatorsTenants(configured: seq<Credential>, t: TenantId)
    ensures t in ByTenant(configured) <==> exists k :: LastLine(configured, t, k)
    ensures forall k :: LastLine(configured, t, k) ==> ByTenant(configured)[t] == configured[k].key
  {
    if configured != [] {
      var n := |configured| - 1;
      OperatorsTenants(configured[..n], t);
      if configured[n].tenant == t {
        assert LastLine(configured, t, n);
      } else {
        if k :| LastLine(configured[..n], t, k) {
          assert LastLine(configured, t, k);
        }
        forall k | LastLine(configured, t, k)
          ensures LastLine(configured[..n], t, k) && ByTenant(configured)[t] == configured[k].key
        {
          assert LastLine(configured[..n], t, k);
        }
      }
    }
  }

  // ----- when it raises --------------------------------------------------------------------------

  /** The control plane's answer about row k, of a tenant neither known nor issued a key before, is an
      exception nobody catches. */
  predicate AskingCrashes(known: Keys, rows: seq<Row>, k: int) {
    && 0 <= k < |rows| && rows[k].tenant !in known && FirstKey(rows[..k], rows[k].tenant).None?
    && !rows[k].mint.Issued? && rows[k].mint.crash
  }

  ghost predicate SomeAskingCrashes(known: Keys, rows: seq<Row>) {
    exists k :: AskingCrashes(known, rows, k)
  }

  lemma SomeAskingCrashesHead(known: Keys, known': Keys, rows: seq<Row>)
    requires rows != []
    requires var t := rows[0].tenant;
             known' == if t !in known && rows[0].mint.Issued? then known[t := rows[0].mint.key] else known
    ensures SomeAskingCrashes(known, rows) <==>
      AskingCrashes(known, rows, 0) || SomeAskingCrashes(known', rows[1..])
  {
    forall k | 0 < k < |rows|
      ensures AskingCrashes(known, rows, k) <==> AskingCrashes(known', rows[1..], k - 1)
    {
      assert rows[..k][0] == rows[0] && rows[..k][1..] == rows[1..][..k - 1];
    }
    if k :| AskingCrashes(known', rows[1..], k) {
      assert AskingCrashes(known, rows, k + 1);
    }
  }

  lemma {:induction false} AdmitRaisesIff(a: Admission, remembered: Keys, rows: seq<Row>)
    requires !a.raised
    ensures Admit(a, remembered, rows).raised <==> SomeAskingCrashes(a.byTenant + remembered, rows)
    decreases |rows|
  {
    if rows != [] {
      var next := AdmitOne(a, remembered, rows[0]);
      var known, t := a.byTenant + remembered, rows[0].tenant;
      var known' := if t !in known && rows[0].mint.Issued? then known[t := rows[0].mint.key] else known;
      SomeAskingCrashesHead(known, known', rows);
      if !next.raised {
        AdmitRaisesIff(next, remembered, rows[1..]);
        SameKnown(next.byTenant + remembered, known', rows[1..]);
      }
    }
  }

  lemma SameKnown(x: Keys, y: Keys, rows: seq<Row>)
    requires x.Keys == y.Keys
    ensures SomeAskingCrashes(x, rows) <==> SomeAskingCrashes(y, rows)
  {
    forall k
      ensures AskingCrashes(x, rows, k) <==> AskingCrashes(y, rows, k)
    {
    }
  }

  /** One tenant's refusal is one tenant's refusal, but an exception other than an `ApiError` while asking for
      one tenant's key ends the call for all of them. It raises exactly when the listing cannot be read or has a
      row without a tenant id, when the state file holds something truthy that is not an object, or when some
      key is asked for like that. */
  lemma ResolveRaisesIff(hasFile: bool, configured: seq<Credential>, listing: Listing, file: StateFile,
                         writing: Writing)
    ensures Resolve(hasFile, configured, listing, file, writing).wanted.None? <==>
      || listing.Garbled?
      || (listing.Listed? && listing.cutShort)
      || (listing.Listed? && hasFile && Remembered(file).None?)
      || (listing.Listed? && SomeAskingCrashes(ByTenant(configured) + Memory(hasFile, file), listing.rows))
  {
    if listing.Listed? {
      AdmitRaisesIff(Admission(ByTenant(configured), map[], [], false), Memory(hasFile, file), listing.rows);
    }
  }

  /** The smallest such case: one dropped connection, and nobody is served, the operator's tenants included. */
  lemma DroppedConnectionStopsEverybody(configured: seq<Credential>, t: TenantId, writing: Writing)
    requires t !in ByTenant(configured)
    ensures Resolve(false, configured, Listed([Row(t, Refused(true))], false), Unreadable, writing).wanted.None?
  {
    var rows := [Row(t, Refused(true))];
    assert AskingCrashes(ByTenant(configured) + Memory(false, Unreadable), rows, 0);
    ResolveRaisesIff(false, configured, Listed(rows, false), Unreadable, writing);
  }

  /** A key whose answer is lost was issued all the same. */
  lemma UnheardIsIssued(configured: seq<Credential>, t: TenantId, writing: Writing)
    requires t !in ByTenant(configured)
    ensures var r := Resolve(false, configured, Listed([Row(t, IssuedUnheard(false))], false), Unreadable, writing);
            r.wanted == Some(ByTenant(configured)) && r.issues == [Issue(t, false)]
  {
    var rows, a := [Row(t, IssuedUnheard(false))], Admission(ByTenant(configured), map[], [], false);
    assert Admit(a, map[], rows) == AdmitOne(a, map[], rows[0]);
  }

  /** A row without a tenant id does the same as a dropped connection, and what was issued for the rows
      before it is lost. */
  lemma NamelessRowWastesKeys(configured: seq<Credential>, t: TenantId, key: Key, writing: Writing)
    requires t !in ByTenant(configured)
    ensures Resolve(true, configured, Listed([Row(t, Issued(key))], true), Unreadable, writing)
            == Resolution(None, Unreadable, [Issue(t, false)])
  {
    var rows, a := [Row(t, Issued(key))], Admission(ByTenant(configured), map[], [], false);
    assert Admit(a, map[], rows) == AdmitOne(a, map[], rows[0]);
    assert Wasted([Issue(t, true)]) == [Issue(t, false)];
  }

  // ----- any number of passes --------------------------------------------------------------------

  datatype BootPass = BootPass(configured: seq<Credential>, listing: Listing, writing: Writing)

  function ResolvePass(hasFile: bool, file: StateFile, pass: BootPass): Resolution {
    Resolve(hasFile, pass.configured, pass.listing, file, pass.writing)
  }

  /** The results of a run of passes, each reading the file the one before left. */
  function ResolveAll(hasFile: bool, file: StateFile, passes: seq<BootPass>): (rs: seq<Resolution>)
    ensures |rs| == |passes|
    decreases |passes|
  {
    if passes == [] then []
    else
      var r := ResolvePass(hasFile, file, passes[0]);
      [r] + ResolveAll(hasFile, r.file, passes[1..])
  }

  function AllIssues(rs: seq<Resolution>): seq<Issue> {
    if rs == [] then [] else rs[0].issues + AllIssues(rs[1..])
  }

  /** The tenant stays listed and unconfigured, the state file works and issued keys are not empty. */
  ghost predicate StaysListed(pass: BootPass, t: TenantId) {
    && t !in ByTenant(pass.configured) && pass.writing.Written?
    && (pass.listing.Listed? ==>
          && (!pass.listing.cutShort ==> IsListed(pass.listing.rows, t))
          && forall k :: 0 <= k < |pass.listing.rows| && pass.listing.rows[k].mint.Issued? ==>
               pass.listing.rows[k].mint.key != "")
  }

  lemma {:induction false} WastedAreNotKept(issues: seq<Issue>, t: TenantId)
    ensures CountIssues(Wasted(issues), Issue(t, true)) == 0
  {
    if issues != [] {
      assert Wasted(issues)[..|issues| - 1] == Wasted(issues[..|issues| - 1]);
      WastedAreNotKept(issues[..|issues| - 1], t);
    }
  }

  /** Once its key is remembered, a tenant is never issued another and keeps that one. */
  lemma KeyStands(file: StateFile, pass: BootPass, t: TenantId, key: Key)
    requires StaysListed(pass, t) && t in Memory(true, file) && Memory(true, file)[t] == key
    ensures var r := ResolvePass(true, file, pass);
            && t in Memory(true, r.file) && Memory(true, r.file)[t] == key
            && CountIssues(r.issues, Issue(t, true)) == 0
            && (r.wanted.Some? && t in r.wanted.value ==> r.wanted.value[t] == key)
            && (r.wanted.Some? && pass.listing.Listed? ==> t in r.wanted.value)
  {
    if pass.listing.Listed? {
      var a := Admission(ByTenant(pass.configured), map[], [], false);
      var end := Admit(a, Memory(true, file), pass.listing.rows);
      AdmitRemembered(a, Memory(true, file), pass.listing.rows, t);
      WastedAreNotKept(end.issues, t);
      SavedIsRemembered(end.acquired);
    }
  }

  /** Before that, a pass issues at most one credential that is kept, and then its key is remembered. */
  lemma FirstIssue(file: StateFile, pass: BootPass, t: TenantId)
    requires StaysListed(pass, t) && t !in Memory(true, file)
    ensures var r := ResolvePass(true, file, pass);
            var kept := CountIssues(r.issues, Issue(t, true));
            && kept <= 1 && (kept == 0 ==> t !in Memory(true, r.file))
            && (r.wanted.Some? ==> (t in r.wanted.value <==> kept == 1))
            && (kept == 1 ==>
                  r.wanted.Some? && t in Memory(true, r.file) && Memory(true, r.file)[t] == r.wanted.value[t])
  {
    if pass.listing.Listed? && Remembered(file).Some? {
      var a := Admission(ByTenant(pass.configured), map[], [], false);
      var end := Admit(a, Memory(true, file), pass.listing.rows);
      AdmitNew(a, Memory(true, file), pass.listing.rows, t);
      WastedAreNotKept(end.issues, t);
      SavedIsRemembered(end.acquired);
      FirstKeyIsListed(pass.listing.rows, t);
    }
  }

  /** With a working state file, a tenant that stays listed and unconfigured is issued at most one
      credential that is kept, over any number of passes, failed listings and aborted passes included. */
  lemma {:induction false} MintOnce(file: StateFile, passes: seq<BootPass>, t: TenantId)
    requires forall p :: 0 <= p < |passes| ==> StaysListed(passes[p], t)
    ensures CountIssues(AllIssues(ResolveAll(true, file, passes)), Issue(t, true))
            <= if t in Memory(true, file) then 0 else 1
    decreases |passes|
  {
    if passes != [] {
      var r := ResolvePass(true, file, passes[0]);
      if t in Memory(true, file) {
        KeyStands(file, passes[0], t, Memory(true, file)[t]);
      } else {
        FirstIssue(file, passes[0], t);
      }
      MintOnce(r.file, passes[1..], t);
      CountAppend(r.issues, AllIssues(ResolveAll(true, r.file, passes[1..])), Issue(t, true));
      ResolveAllHead(true, file, passes);
    }
  }

  lemma ResolveAllHead(hasFile: bool, file: StateFile, passes: seq<BootPass>)
    requires passes != []
    ensures var r, rs := ResolvePass(hasFile, file, passes[0]), ResolveAll(hasFile, file, passes);
            && rs[0] == r && rs[1..] == ResolveAll(hasFile, r.file, passes[1..])
            && AllIssues(rs) == r.issues + AllIssues(ResolveAll(hasFile, r.file, passes[1..]))
  {
  }

  // ----- every credential issued -----------------------------------------------------------------

  /** Every credential issued for `t`, kept or not. */
  function Minted(issues: seq<Issue>, t: TenantId): nat {
    CountIssues(issues, Issue(t, true)) + CountIssues(issues, Issue(t, false))
  }

  /** Nobody asks about a tenant whose key is known, nor about one that is not listed. */
  lemma {:induction false} NotAsked(a: Admission, remembered: Keys, rows: seq<Row>, t: TenantId)
    requires t in a.byTenant || t in remembered || !IsListed(rows, t)
    ensures Minted(Admit(a, remembered, rows).issues, t) == Minted(a.issues, t)
    decreases |rows|
  {
    if rows != [] && !a.raised {
      ListedTail(rows, t);
      NotAsked(AdmitOne(a, remembered, rows[0]), remembered, rows[1..], t);
    }
  }

  predicate OnceEach(rows: seq<Row>) {
    forall i, j :: 0 <= i < j < |rows| ==> rows[i].tenant != rows[j].tenant
  }

  lemma {:induction false} AskedOnce(a: Admission, remembered: Keys, rows: seq<Row>, t: TenantId)
    requires OnceEach(rows)
    ensures Minted(Admit(a, remembered, rows).issues, t) <= Minted(a.issues, t) + 1
    decreases |rows|
  {
    if rows != [] && !a.raised {
      var next := AdmitOne(a, remembered, rows[0]);
      if rows[0].tenant == t {
        NotAsked(next, remembered, rows[1..], t);
      } else {
        AskedOnce(next, remembered, rows[1..], t);
      }
    }
  }

  predicate AnswersHeard(rows: seq<Row>, t: TenantId) {
    forall k :: 0 <= k < |rows| && rows[k].tenant == t ==> !rows[k].mint.IssuedUnheard?
  }

  lemma {:induction false} HeardIsKept(a: Admission, remembered: Keys, rows: seq<Row>, t: TenantId)
    requires AnswersHeard(rows, t)
    ensures CountIssues(Admit(a, remembered, rows).issues, Issue(t, false)) == CountIssues(a.issues, Issue(t, false))
    decreases |rows|
  {
    if rows != [] && !a.raised {
      HeardIsKept(AdmitOne(a, remembered, rows[0]), remembered, rows[1..], t);
    }
  }

  lemma {:induction false} WastedAreMinted(issues: seq<Issue>, t: TenantId)
    ensures Minted(Wasted(issues), t) == Minted(issues, t)
  {
    if issues != [] {
      assert Wasted(issues)[..|issues| - 1] == Wasted(issues[..|issues| - 1]);
      WastedAreMinted(issues[..|issues| - 1], t);
    }
  }

  /** The pass completed, and heard what the control plane answered about `t`. */
  predicate IsClean(file: StateFile, pass: BootPass, t: TenantId) {
    ResolvePass(true, file, pass).wanted.Some? && (pass.listing.Listed? ==> AnswersHeard(pass.listing.rows, t))
  }

  /** The passes of a run that raised or lost an answer about `t`. */
  function UncleanPasses(file: StateFile, passes: seq<BootPass>, t: TenantId): nat
    decreases |passes|
  {
    if passes == [] then 0
    else
      (if IsClean(file, passes[0], t) then 0 else 1)
      + UncleanPasses(ResolvePass(true, file, passes[0]).file, passes[1..], t)
  }

  lemma PassMints(file: StateFile, pass: BootPass, t: TenantId)
    requires pass.listing.Listed? ==> OnceEach(pass.listing.rows)
    ensures var r := ResolvePass(true, file, pass);
            && Minted(r.issues, t) <= 1 && (t in Memory(true, file) ==> Minted(r.issues, t) == 0)
            && (IsClean(file, pass, t) ==> Minted(r.issues, t) == CountIssues(r.issues, Issue(t, true)))
  {
    if pass.listing.Listed? && Remembered(file).Some? {
      var a := Admission(ByTenant(pass.configured), map[], [], false);
      var rows, memory := pass.listing.rows, Memory(true, file);
      AskedOnce(a, memory, rows, t);
      WastedAreMinted(Admit(a, memory, rows).issues, t);
      if t in memory {
        NotAsked(a, memory, rows, t);
      }
      if IsClean(file, pass, t) {
        HeardIsKept(a, memory, rows, t);
      }
    }
  }

  /** Every credential a tenant is issued beyond the first belongs to a pass that lost the answer or threw
      its keys away by raising, and each such pass costs at most one. */
  lemma {:induction false} MintsAccountedFor(file: StateFile, passes: seq<BootPass>, t: TenantId)
    requires forall p :: 0 <= p < |passes| ==>
      StaysListed(passes[p], t) && (passes[p].listing.Listed? ==> OnceEach(passes[p].listing.rows))
    ensures Minted(AllIssues(ResolveAll(true, file, passes)), t)
            <= (if t in Memory(true, file) then 0 else 1) + UncleanPasses(file, passes, t)
    decreases |passes|
  {
    if passes != [] {
      var r := ResolvePass(true, file, passes[0]);
      PassMints(file, passes[0], t);
      if t in Memory(true, file) {
        KeyStands(file, passes[0], t, Memory(true, file)[t]);
      } else {
        FirstIssue(file, passes[0], t);
      }
      MintsAccountedFor(r.file, passes[1..], t);
      CountAppend(r.issues, AllIssues(ResolveAll(true, r.file, passes[1..])), Issue(t, true));
      CountAppend(r.issues, AllIssues(ResolveAll(true, r.file, passes[1..])), Issue(t, false));
      ResolveAllHead(true, file, passes);
    }
  }

  lemma {:induction false} RememberedKeyIsServed(file: StateFile, passes: seq<BootPass>, t: TenantId, p: nat)
    requires forall i :: 0 <= i < |passes| ==> StaysListed(passes[i], t)
    requires t in Memory(true, file) && p < |passes| && Serves(ResolveAll(true, file, passes)[p], t)
    ensures ResolveAll(true, file, passes)[p].wanted.value[t] == Memory(true, file)[t]
    decreases |passes|
  {
    KeyStands(file, passes[0], t, Memory(true, file)[t]);
    ResolveAllHead(true, file, passes);
    if p > 0 {
      RememberedKeyIsServed(ResolvePass(true, file, passes[0]).file, passes[1..], t, p - 1);
    }
  }

  /** Under the same conditions its key is the same in every tenant set it appears in. */
  lemma {:induction false} KeyNeverChanges(file: StateFile, passes: seq<BootPass>, t: TenantId, p: nat, q: nat)
    requires forall i :: 0 <= i < |passes| ==> StaysListed(passes[i], t)
    requires p < q < |passes|
    requires Serves(ResolveAll(true, file, passes)[p], t) && Serves(ResolveAll(true, file, passes)[q], t)
    ensures ResolveAll(true, file, passes)[p].wanted.value[t] == ResolveAll(true, file, passes)[q].wanted.value[t]
    decreases |passes|
  {
    if t in Memory(true, file) {
      RememberedKeyIsServed(file, passes, t, p);
      RememberedKeyIsServed(file, passes, t, q);
    } else {
      var next := ResolvePass(true, file, passes[0]).file;
      FirstIssue(file, passes[0], t);
      ResolveAllHead(true, file, passes);
      if p > 0 {
        KeyNeverChanges(next, passes[1..], t, p - 1, q - 1);
      } else {
        RememberedKeyIsServed(next, passes[1..], t, q - 1);
      }
    }
  }

  predicate Serves(r: Resolution, t: TenantId) {
    r.wanted.Some? && t in r.wanted.value
  }

  // ----- exactly when a pass mints, and what it remembers ----------------------------------------

  /** The pass completes, lists `t`, and the control plane would answer a request for its key. */
  predicate Able(hasFile: bool, file: StateFile, pass: BootPass, t: TenantId) {
    ResolvePass(hasFile, file, pass).wanted.Some? && pass.listing.Listed? && FirstKey(pass.listing.rows, t).Some?
  }

  predicate MintsNow(hasFile: bool, file: StateFile, pass: BootPass, t: TenantId) {
    Able(hasFile, file, pass, t) && t !in Memory(hasFile, file)
  }

  /** Whether the pass leaves a key for `t` behind. One that does not get past the listing leaves the file
      alone; else there has to be a file, and either it is written with a key that is not empty, remembered
      or new, or a failed write leaves one. */
  ghost predicate Keeps(hasFile: bool, file: StateFile, pass: BootPass, t: TenantId) {
    if ResolvePass(hasFile, file, pass).wanted.None? || !pass.listing.Listed? then t in Memory(hasFile, file)
    else
      hasFile &&
      if pass.writing.NotWritten? then t in Memory(true, pass.writing.leaves)
      else if t in Memory(true, file) then IsListed(pass.listing.rows, t)
      else FirstKey(pass.listing.rows, t).GetOr("") != ""
  }

  /** Any pass at all: it issues `t` a kept credential exactly when it is able to and the file holds none, and
      the file holds one afterwards exactly when the pass keeps it. */
  lemma MintsIff(hasFile: bool, file: StateFile, pass: BootPass, t: TenantId)
    requires t !in ByTenant(pass.configured)
    ensures var r := ResolvePass(hasFile, file, pass);
            && CountIssues(r.issues, Issue(t, true)) == (if MintsNow(hasFile, file, pass, t) then 1 else 0)
            && (t in Memory(hasFile, r.file) <==> Keeps(hasFile, file, pass, t))
  {
    if pass.listing.Listed? && (hasFile ==> Remembered(file).Some?) {
      var a := Admission(ByTenant(pass.configured), map[], [], false);
      var rows, memory := pass.listing.rows, Memory(hasFile, file);
      if t in memory {
        AdmitRemembered(a, memory, rows, t);
      } else {
        AdmitNew(a, memory, rows, t);
      }
      WastedAreNotKept(Admit(a, memory, rows).issues, t);
      SavedIsRemembered(Admit(a, memory, rows).acquired);
    }
  }

  /** The passes leave `t` to the runner, and no failed write leaves a key nobody had. */
  ghost predicate Sane(hasFile: bool, file: StateFile, passes: seq<BootPass>, t: TenantId)
    decreases |passes|
  {
    passes == [] ||
    (&& t !in ByTenant(passes[0].configured)
     && (Keeps(hasFile, file, passes[0], t) ==> t in Memory(hasFile, file) || MintsNow(hasFile, file, passes[0], t))
     && Sane(hasFile, ResolvePass(hasFile, file, passes[0]).file, passes[1..], t))
  }

  /** How many of the passes mint for `t`. */
  function Mintings(hasFile: bool, file: StateFile, passes: seq<BootPass>, t: TenantId): nat
    decreases |passes|
  {
    if passes == [] then 0
    else
      (if MintsNow(hasFile, file, passes[0], t) then 1 else 0)
      + Mintings(hasFile, ResolvePass(hasFile, file, passes[0]).file, passes[1..], t)
  }

  /** Over any number of passes, one credential for every pass that is able to mint and starts without one. */
  lemma {:induction false} MintsCounted(hasFile: bool, file: StateFile, passes: seq<BootPass>, t: TenantId)
    requires Sane(hasFile, file, passes, t)
    ensures CountIssues(AllIssues(ResolveAll(hasFile, file, passes)), Issue(t, true))
            == Mintings(hasFile, file, passes, t)
    decreases |passes|
  {
    if passes != [] {
      var r := ResolvePass(hasFile, file, passes[0]);
      MintsIff(hasFile, file, passes[0], t);
      MintsCounted(hasFile, r.file, passes[1..], t);
      CountAppend(r.issues, AllIssues(ResolveAll(hasFile, r.file, passes[1..])), Issue(t, true));
      ResolveAllHead(hasFile, file, passes);
    }
  }

  ghost predicate SomeAble(hasFile: bool, file: StateFile, passes: seq<BootPass>, t: TenantId)
    decreases |passes|
  {
    passes != [] &&
    (Able(hasFile, file, passes[0], t) || SomeAble(hasFile, ResolvePass(hasFile, file, passes[0]).file, passes[1..], t))
  }

  /** The pass has a key for `t`, remembered or new, and does not keep it. */
  ghost predicate Loses(hasFile: bool, file: StateFile, pass: BootPass, t: TenantId) {
    (t in Memory(hasFile, file) || MintsNow(hasFile, file, pass, t)) && !Keeps(hasFile, file, pass, t)
  }

  /** No pass that loses the key comes before one that is able to mint. */
  ghost predicate KeptWhileNeeded(hasFile: bool, file: StateFile, passes: seq<BootPass>, t: TenantId)
    decreases |passes|
  {
    passes == [] ||
    var next := ResolvePass(hasFile, file, passes[0]).file;
    (Loses(hasFile, file, passes[0], t) ==> !SomeAble(hasFile, next, passes[1..], t))
    && KeptWhileNeeded(hasFile, next, passes[1..], t)
  }

  lemma {:induction false} MintingsIff(hasFile: bool, file: StateFile, passes: seq<BootPass>, t: TenantId)
    requires Sane(hasFile, file, passes, t)
    ensures var n, known := Mintings(hasFile, file, passes, t), t in Memory(hasFile, file);
            && (n <= (if known then 0 else 1) <==> KeptWhileNeeded(hasFile, file, passes, t))
            && (!known ==> (n > 0 <==> SomeAble(hasFile, file, passes, t)))
    decreases |passes|
  {
    if passes != [] {
      MintsIff(hasFile, file, passes[0], t);
      MintingsIff(hasFile, ResolvePass(hasFile, file, passes[0]).file, passes[1..], t);
    }
  }

  /** One mint per tenant, and none when the file held its key from the start, if and only if no pass that
      loses the key comes before one that is able to mint. Passes whose listing fails, whose request is
      refused, or that raise, are all admitted. */
  lemma MintOnceIff(hasFile: bool, file: StateFile, passes: seq<BootPass>, t: TenantId)
    requires Sane(hasFile, file, passes, t)
    ensures CountIssues(AllIssues(ResolveAll(hasFile, file, passes)), Issue(t, true))
            <= (if t in Memory(hasFile, file) then 0 else 1)
            <==> KeptWhileNeeded(hasFile, file, passes, t)
  {
    MintsCounted(hasFile, file, passes, t);
    MintingsIff(hasFile, file, passes, t);
  }

  // ----- where no pass keeps its keys ------------------------------------------------------------

  /** Every pass is able to mint for `t`, and leaves it to the runner. */
  ghost predicate AllAble(hasFile: bool, file: StateFile, passes: seq<BootPass>, t: TenantId)
    decreases |passes|
  {
    passes == [] ||
    (&& t !in ByTenant(passes[0].configured) && Able(hasFile, file, passes[0], t)
     && AllAble(hasFile, ResolvePass(hasFile, file, passes[0]).file, passes[1..], t))
  }

  /** No pass keeps the key: no file is configured, or none can be written and what is left holds no key. */
  ghost predicate NeverKept(hasFile: bool, passes: seq<BootPass>, t: TenantId) {
    hasFile ==> forall p :: 0 <= p < |passes| ==>
      passes[p].writing.NotWritten? && t !in Memory(true, passes[p].writing.leaves)
  }

  /** One such pass. */
  lemma ForgettingPass(hasFile: bool, file: StateFile, pass: BootPass, t: TenantId)
    requires t !in ByTenant(pass.configured) && Able(hasFile, file, pass, t) && t !in Memory(hasFile, file)
    requires hasFile ==> pass.writing.NotWritten? && t !in Memory(true, pass.writing.leaves)
    ensures var r := ResolvePass(hasFile, file, pass);
            && CountIssues(r.issues, Issue(t, true)) == 1 && t !in Memory(hasFile, r.file)
            && Serves(r, t) && Some(r.wanted.value[t]) == FirstKey(pass.listing.rows, t)
  {
    MintsIff(hasFile, file, pass, t);
    WantedExactly(hasFile, pass.configured, pass.listing, file, pass.writing, t);
  }

  /** Then every pass mints a new credential for every workspace, and serves it under that pass's key. */
  lemma {:induction false} ForgettingMintsEveryPass(hasFile: bool, file: StateFile, passes: seq<BootPass>, t: TenantId)
    requires AllAble(hasFile, file, passes, t) && NeverKept(hasFile, passes, t) && t !in Memory(hasFile, file)
    ensures var rs := ResolveAll(hasFile, file, passes);
            && CountIssues(AllIssues(rs), Issue(t, true)) == |passes|
            && forall p :: 0 <= p < |rs| ==>
                 && passes[p].listing.Listed? && Serves(rs[p], t)
                 && Some(rs[p].wanted.value[t]) == FirstKey(passes[p].listing.rows, t)
    decreases |passes|
  {
    if passes != [] {
      var r := ResolvePass(hasFile, file, passes[0]);
      var rest := ResolveAll(hasFile, r.file, passes[1..]);
      ForgettingPass(hasFile, file, passes[0], t);
      ForgettingMintsEveryPass(hasFile, r.file, passes[1..], t);
      CountAppend(r.issues, AllIssues(rest), Issue(t, true));
      assert ResolveAll(hasFile, file, passes) == [r] + rest;
      assert AllIssues([r] + rest) == r.issues + AllIssues(rest);
    }
  }
}

/**
 The tenants' skill bundles, in memory and on disk (flow_runner/bundles.py:57-130).
 */
module Bundles {
  import opened Options

  type TenantId = string

  /** A resolved path, from the root down. */
  type Path = seq<string>

  /** An archive member's name, split at the slashes. */
  datatype Entry = Entry(absolute: bool, parts: seq<string>)

  datatype Bundle = Bundle(tenant: TenantId, entries: seq<Entry>, fetchedAt: int)

  /** What a download meets: no answer; an answer that is not a zip; an archive that turns out corrupt
      after its first `intact` members; or an archive, with or without a usable manifest, and the time it
      was finished. */
  datatype Fetch =
    | NoAnswer
    | NotAnArchive
    | Corrupt(entries: seq<Entry>, intact: nat)
    | Archive(entries: seq<Entry>, manifest: bool, at: int)

  // ----- _extract_safely -------------------------------------------------------------------------

  /** `Path.resolve()` on a path without links: dots stay, double dots go up, the root has no parent. */
  function Walk(from: Path, parts: seq<string>): Path
    decreases |parts|
  {
    if parts == [] then from
    else if parts[0] == "" || parts[0] == "." then Walk(from, parts[1..])
    else if parts[0] == ".." then Walk(if from == [] then [] else from[..|from| - 1], parts[1..])
    else Walk(from + [parts[0]], parts[1..])
  }

  function Target(root: Path, e: Entry): Path {
    Walk(if e.absolute then [] else root, e.parts)
  }

  predicate Escapes(root: Path, e: Entry) {
    !(root <= Target(root, e))
  }

  predicate Refused(root: Path, entries: seq<Entry>) {
    exists k :: 0 <= k < |entries| && Escapes(root, entries[k])
  }

  /** Where `extractall` writes a member: below the root whatever its name, with dots of both kinds left
      out. */
  function Kept(parts: seq<string>): seq<string> {
    if parts == [] then []
    else if parts[0] in ["", ".", ".."] then Kept(parts[1..])
    else [parts[0]] + Kept(parts[1..])
  }

  function WrittenTo(root: Path, e: Entry): Path {
    root + Kept(e.parts)
  }

  /** The loop over the members comes before anything is written: one bad member and nothing is. */
  method ExtractSafely(root: Path, entries: seq<Entry>) returns (written: Option<seq<Path>>)
    ensures written.None? <==> Refused(root, entries)
    ensures written.Some? ==> |written.value| == |entries|
    ensures written.Some? ==>
      forall k :: 0 <= k < |entries| ==> written.value[k] == WrittenTo(root, entries[k]) && root <= written.value[k]
  {
    for k := 0 to |entries|
      invariant forall i :: 0 <= i < k ==> !Escapes(root, entries[i])
    {
      if Escapes(root, entries[k]) {
        return None;
      }
    }
    written := Some(seq(|entries|, k requires 0 <= k < |entries| => WrittenTo(root, entries[k])));
  }

  lemma {:induction false} WalkWithoutUps(from: Path, parts: seq<string>)
    requires ".." !in parts
    ensures Walk(from, parts) == from + Kept(parts)
    decreases |parts|
  {
    if parts == [] {
      assert from + [] == from;
    } else if parts[0] == "" || parts[0] == "." {
      WalkWithoutUps(from, parts[1..]);
    } else {
      WalkWithoutUps(from + [parts[0]], parts[1..]);
      assert from + [parts[0]] + Kept(parts[1..]) == from + ([parts[0]] + Kept(parts[1..]));
    }
  }

  /** A plain relative name is never refused, and is written exactly where it was checked. */
  lemma PlainNamesPass(root: Path, e: Entry)
    requires !e.absolute && ".." !in e.parts
    ensures !Escapes(root, e) && Target(root, e) == WrittenTo(root, e)
  {
    WalkWithoutUps(root, e.parts);
  }

  /** n steps up. */
  function Ups(n: nat): (ups: seq<string>)
    ensures |ups| == n && forall i :: 0 <= i < n ==> ups[i] == ".."
  {
    seq(n, _ => "..")
  }

  lemma {:induction false} WalkUps(from: Path, n: nat, plain: seq<string>)
    requires ".." !in plain
    ensures Walk(from, Ups(n) + plain) == from[..if n <= |from| then |from| - n else 0] + Kept(plain)
    decreases n
  {
    if n == 0 {
      assert Ups(0) + plain == plain && from[..|from|] == from;
      WalkWithoutUps(from, plain);
    } else {
      assert (Ups(n) + plain)[0] == ".." && (Ups(n) + plain)[1..] == Ups(n - 1) + plain;
      WalkUps(if from == [] then [] else from[..|from| - 1], n - 1, plain);
    }
  }

  /** A relative name that starts by going up escapes unless it comes down the same directories again. */
  lemma UpsEscapeIff(root: Path, n: nat, plain: seq<string>)
    requires ".." !in plain && n <= |root|
    ensures Escapes(root, Entry(false, Ups(n) + plain)) <==> !(root[|root| - n..] <= Kept(plain))
  {
    WalkUps(root, n, plain);
    var base, down := root[..|root| - n], root[|root| - n..];
    assert root == base + down;
    if down <= Kept(plain) {
      assert (base + Kept(plain))[..|root|] == base + Kept(plain)[..n];
    }
    if root <= base + Kept(plain) {
      assert down == (base + Kept(plain))[|base|..|root|] == Kept(plain)[..n];
    }
  }

  /** An absolute name escapes unless it names a place below the root. */
  lemma AbsoluteEscapesIff(root: Path, plain: seq<string>)
    requires ".." !in plain
    ensures Escapes(root, Entry(true, plain)) <==> !(root <= Kept(plain))
  {
    WalkWithoutUps([], plain);
    assert [] + Kept(plain) == Kept(plain);
  }

  // ----- the store -------------------------------------------------------------------------------

  /** `disk` holds, per tenant, the whole members last extracted into its directory. */
  datatype Store = Store(installed: map<TenantId, Bundle>, disk: map<TenantId, seq<Entry>>)

  function Prefix(entries: seq<Entry>, n: nat): seq<Entry> {
    if n <= |entries| then entries[..n] else entries
  }

  /** The directory is emptied before the archive is opened; the bundle is installed only at the end. */
  function Download(s: Store, root: Path, t: TenantId, fetch: Fetch): (Store, Option<Bundle>) {
    match fetch
    case NoAnswer => (s, None)
    case NotAnArchive => (s.(disk := s.disk[t := []]), None)
    case Corrupt(entries, intact) =>
      (s.(disk := s.disk[t := if Refused(root + [t], entries) then [] else Prefix(entries, intact)]), None)
    case Archive(entries, manifest, at) =>
      if Refused(root + [t], entries) then (s.(disk := s.disk[t := []]), None)
      else
        var s' := s.(disk := s.disk[t := entries]);
        if !manifest then (s', None)
        else (s'.(installed := s.installed[t := Bundle(t, entries, at)]), Some(Bundle(t, entries, at)))
  }

  function Ensure(s: Store, root: Path, ttl: int, t: TenantId, refresh: bool, now: int, fetch: Fetch): (Store,
                  Option<Bundle>) {
    if t in s.installed && !refresh && now - s.installed[t].fetchedAt < ttl then (s, Some(s.installed[t]))
    else Download(s, root, t, fetch)
  }

  class BundleStore {
    const workspace: Path
    const ttl: int
    var installed: map<TenantId, Bundle>
    var disk: map<TenantId, seq<Entry>>

    constructor (workspace: Path, ttl: int)
      ensures this.workspace == workspace && this.ttl == ttl && Contents() == Store(map[], map[])
    {
      this.workspace := workspace;
      this.ttl := ttl;
      installed := map[];
      disk := map[];
    }

    function Contents(): Store
      reads this
    {
      Store(installed, disk)
    }

    /** None when it raised. */
    method EnsureBundle(t: TenantId, refresh: bool, now: int, fetch: Fetch) returns (bundle: Option<Bundle>)
      modifies this
      ensures (Contents(), bundle) == Ensure(old(Contents()), workspace, ttl, t, refresh, now, fetch)
    {
      if t in installed {
        var cached := installed[t];
        if !refresh && now - cached.fetchedAt < ttl {
          return Some(cached);
        }
      }
      if fetch.NoAnswer? {
        return None;
      }
      disk := disk[t := []];
      if fetch.NotAnArchive? {
        return None;
      }
      var written := ExtractSafely(workspace + [t], fetch.entries);
      assert written.None? <==> Refused(workspace + [t], fetch.entries);
      if written.None? {
        return None;
      }
      if fetch.Corrupt? {
        disk := disk[t := Prefix(fetch.entries, fetch.intact)];
        assert disk == old(disk)[t := Prefix(fetch.entries, fetch.intact)];
        return None;
      }
      disk := disk[t := fetch.entries];
      assert disk == old(disk)[t := fetch.entries];
      if !fetch.manifest {
        return None;
      }
      var fetched := Bundle(t, fetch.entries, fetch.at);
      installed := installed[t := fetched];
      bundle := Some(fetched);
    }
  }

  // ----- over any sequence of calls --------------------------------------------------------------

  datatype Call = Call(tenant: TenantId, refresh: bool, now: int, fetch: Fetch)

  function EnsureAll(s: Store, root: Path, ttl: int, calls: seq<Call>): (Store, seq<Option<Bundle>>)
    decreases |calls|
  {
    if calls == [] then (s, [])
    else
      var c := calls[0];
      var (s1, b) := Ensure(s, root, ttl, c.tenant, c.refresh, c.now, c.fetch);
      var (s2, bs) := EnsureAll(s1, root, ttl, calls[1..]);
      (s2, [b] + bs)
  }

  lemma {:induction false} ResultsMatch(s: Store, root: Path, ttl: int, calls: seq<Call>)
    ensures |EnsureAll(s, root, ttl, calls).1| == |calls|
    decreases |calls|
  {
    if calls != [] {
      ResultsMatch(After(s, root, ttl, calls[0]), root, ttl, calls[1..]);
    }
  }

  /** The store a call leaves. */
  function After(s: Store, root: Path, ttl: int, c: Call): Store {
    Ensure(s, root, ttl, c.tenant, c.refresh, c.now, c.fetch).0
  }

  // ----- whose bundle it is, and how old ---------------------------------------------------------

  predicate Owned(s: Store) {
    forall t :: t in s.installed ==> s.installed[t].tenant == t
  }

  /** The bundle this call's own download makes. */
  predicate JustFetched(c: Call, b: Bundle) {
    c.fetch.Archive? && b == Bundle(c.tenant, c.fetch.entries, c.fetch.at)
  }

  ghost predicate FetchedBy(calls: seq<Call>, n: nat, b: Bundle) {
    exists i :: 0 <= i < |calls| && i < n && JustFetched(calls[i], b)
  }

  /** Any calls at all, forced or not, in any order of clocks: a bundle handed out is this tenant's, is
      younger than the time to live or fetched by this very call, and was fetched for this tenant by a call
      so far unless the store started with it. */
  lemma {:induction false} CacheIsOwned(s: Store, root: Path, ttl: int, calls: seq<Call>, k: nat)
    requires Owned(s) && k < |calls|
    ensures var results := EnsureAll(s, root, ttl, calls).1;
            |results| == |calls| && (results[k].Some? ==>
              var c, b := calls[k], results[k].value;
              && b.tenant == c.tenant && (c.now - b.fetchedAt < ttl || JustFetched(c, b))
              && ((c.tenant in s.installed && s.installed[c.tenant] == b) || FetchedBy(calls, k + 1, b)))
    decreases |calls|
  {
    var c := calls[0];
    var s1 := After(s, root, ttl, c);
    ResultsMatch(s, root, ttl, calls);
    if k > 0 {
      CacheIsOwned(s1, root, ttl, calls[1..], k - 1);
      var result := EnsureAll(s1, root, ttl, calls[1..]).1[k - 1];
      if result.Some? {
        if i :| 0 <= i < |calls[1..]| && i < k && JustFetched(calls[1..][i], result.value) {
          assert JustFetched(calls[i + 1], result.value);
        } else if s1.installed != s.installed && calls[k].tenant == c.tenant {
          assert JustFetched(calls[0], result.value);
        }
      }
    } else {
      var result := Ensure(s, root, ttl, c.tenant, c.refresh, c.now, c.fetch).1;
      assert result.Some? && (c.tenant in s.installed ==> s.installed[c.tenant] != result.value) ==>
        JustFetched(calls[0], result.value);
    }
  }

  // ----- whether it is really there --------------------------------------------------------------

  predicate OnDisk(s: Store, b: Bundle) {
    b.tenant in s.disk && s.disk[b.tenant] == b.entries
  }

  /** What a call hands back: this tenant's bundle, young enough or just fetched, and really on disk. */
  predicate Sound(s: Store, c: Call, b: Bundle, ttl: int) {
    b.tenant == c.tenant && (c.now - b.fetchedAt < ttl || JustFetched(c, b)) && OnDisk(s, b)
  }

  /** Every cached bundle is this tenant's, and is on disk unless it is already too old to be used. */
  predicate Coherent(s: Store, ttl: int, now: int) {
    Owned(s) && forall t :: t in s.installed ==> OnDisk(s, s.installed[t]) || now - s.installed[t].fetchedAt >= ttl
  }

  /** What a download leaves in the directory; None when it never gets that far. */
  function Leaves(root: Path, t: TenantId, fetch: Fetch): Option<seq<Entry>> {
    match fetch
    case NoAnswer => None
    case NotAnArchive => Some([])
    case Corrupt(entries, intact) => Some(if Refused(root + [t], entries) then [] else Prefix(entries, intact))
    case Archive(entries, _, _) => Some(if Refused(root + [t], entries) then [] else entries)
  }

  predicate Usable(root: Path, t: TenantId, fetch: Fetch) {
    fetch.Archive? && !Refused(root + [t], fetch.entries) && fetch.manifest
  }

  /** What a call hands out and leaves behind: a bundle still young, untouched, unless forced; else what a
      usable answer brings, installed and on disk; else nothing, with the cache as it was and the directory as
      the failure left it. */
  lemma EnsureHandsOut(s: Store, root: Path, ttl: int, c: Call)
    ensures var (s', b) := Ensure(s, root, ttl, c.tenant, c.refresh, c.now, c.fetch);
            var t := c.tenant;
            if !c.refresh && t in s.installed && c.now < s.installed[t].fetchedAt + ttl then
              s' == s && b == Some(s.installed[t])
            else if Usable(root, t, c.fetch) then
              && b == Some(Bundle(t, c.fetch.entries, c.fetch.at))
              && s' == Store(s.installed[t := b.value], s.disk[t := c.fetch.entries])
            else
              && b.None? && s'.installed == s.installed
              && s'.disk == match Leaves(root, t, c.fetch) case Some(left) => s.disk[t := left] case None => s.disk
  {
  }

  /** A forced refresh of a bundle that could still be used, whose answer cannot be installed and leaves
      something else in the directory. */
  predicate Breaks(s: Store, root: Path, ttl: int, c: Call) {
    && c.refresh && c.tenant in s.installed && c.now - s.installed[c.tenant].fetchedAt < ttl
    && !Usable(root, c.tenant, c.fetch)
    && Leaves(root, c.tenant, c.fetch) !in {None, Some(s.installed[c.tenant].entries)}
  }

  /** One call on a coherent store: what it hands back is sound, and the store stays coherent exactly when
      the call is not such a refresh. */
  lemma EnsureIsSound(s: Store, root: Path, ttl: int, c: Call)
    requires Coherent(s, ttl, c.now)
    ensures var (s', b) := Ensure(s, root, ttl, c.tenant, c.refresh, c.now, c.fetch);
            && (b.Some? ==> Sound(s', c, b.value, ttl))
            && (Coherent(s', ttl, c.now) <==> !Breaks(s, root, ttl, c))
  {
    var s' := After(s, root, ttl, c);
    if Breaks(s, root, ttl, c) {
      assert !OnDisk(s', s'.installed[c.tenant]);
    }
  }

  /** The clock does not run backwards: a call starts no earlier than the last. */
  predicate InOrder(calls: seq<Call>, since: int)
    decreases |calls|
  {
    calls == [] || (since <= calls[0].now && InOrder(calls[1..], calls[0].now))
  }

  /** None of the calls is such a refresh when its turn comes. */
  predicate NeverBreaks(s: Store, root: Path, ttl: int, calls: seq<Call>)
    decreases |calls|
  {
    calls == [] ||
    (!Breaks(s, root, ttl, calls[0]) && NeverBreaks(After(s, root, ttl, calls[0]), root, ttl, calls[1..]))
  }

  /** Until a call breaks the store, every bundle handed out is sound, failed downloads in between or not. */
  lemma {:induction false} CacheIsSound(s: Store, root: Path, ttl: int, calls: seq<Call>, since: int, k: nat)
    requires Coherent(s, ttl, since) && InOrder(calls, since) && k < |calls| && NeverBreaks(s, root, ttl, calls[..k])
    ensures var results := EnsureAll(s, root, ttl, calls).1;
            |results| == |calls| &&
            (results[k].Some? ==>
               Sound(EnsureAll(s, root, ttl, calls[..k + 1]).0, calls[k], results[k].value, ttl))
    decreases |calls|
  {
    var c := calls[0];
    var s1 := After(s, root, ttl, c);
    EnsureIsSound(s, root, ttl, c);
    assert calls[..k + 1][0] == c && calls[..k + 1][1..] == calls[1..][..k];
    ResultsMatch(s1, root, ttl, calls[1..]);
    if k > 0 {
      assert calls[..k][0] == c && calls[..k][1..] == calls[1..][..k - 1];
      CacheIsSound(s1, root, ttl, calls[1..], c.now, k - 1);
    } else {
      assert calls[1..][..0] == [];
    }
  }

  /** Whoever asks now, without forcing and without an answer from the server, gets nothing that is not on
      disk. */
  ghost predicate HandsOutNoGhost(s: Store, root: Path, ttl: int, now: int) {
    forall t :: var b := Ensure(s, root, ttl, t, false, now, NoAnswer).1; b.Some? ==> OnDisk(s, b.value)
  }

  lemma NoGhostIffCoherent(s: Store, root: Path, ttl: int, now: int)
    requires Owned(s)
    ensures HandsOutNoGhost(s, root, ttl, now) <==> Coherent(s, ttl, now)
  {
    if HandsOutNoGhost(s, root, ttl, now) {
      forall t | t in s.installed
        ensures OnDisk(s, s.installed[t]) || now - s.installed[t].fetchedAt >= ttl
      {
        var b := Ensure(s, root, ttl, t, false, now, NoAnswer).1;
        assert b.Some? ==> OnDisk(s, b.value);
      }
    }
  }

  /** At every point of the run, before the first call and after each. */
  ghost predicate NeverAGhost(s: Store, root: Path, ttl: int, calls: seq<Call>, now: int)
    decreases |calls|
  {
    && HandsOutNoGhost(s, root, ttl, now)
    && (calls != [] ==> NeverAGhost(After(s, root, ttl, calls[0]), root, ttl, calls[1..], calls[0].now))
  }

  /** Over any sequence of calls, forced ones included: no point of it hands out a bundle that is not on
      disk if and only if no call is a forced refresh of a still usable bundle that fails and leaves
      something else. */
  lemma {:induction false} NeverAGhostIff(s: Store, root: Path, ttl: int, calls: seq<Call>, since: int)
    requires Coherent(s, ttl, since) && InOrder(calls, since)
    ensures NeverAGhost(s, root, ttl, calls, since) <==> NeverBreaks(s, root, ttl, calls)
    decreases |calls|
  {
    NoGhostIffCoherent(s, root, ttl, since);
    if calls != [] {
      var c := calls[0];
      var s1 := After(s, root, ttl, c);
      EnsureIsSound(s, root, ttl, c);
      if Breaks(s, root, ttl, c) {
        NoGhostIffCoherent(s1, root, ttl, c.now);
      } else {
        NeverAGhostIff(s1, root, ttl, calls[1..], c.now);
      }
    }
  }

  lemma {:induction false} UnforcedNeverBreaks(s: Store, root: Path, ttl: int, calls: seq<Call>)
    requires forall k :: 0 <= k < |calls| ==> !calls[k].refresh
    ensures NeverBreaks(s, root, ttl, calls)
    decreases |calls|
  {
    if calls != [] {
      UnforcedNeverBreaks(After(s, root, ttl, calls[0]), root, ttl, calls[1..]);
    }
  }

  /** So without forced calls, which are all the calls the adapter makes, no ghost is ever handed out. */
  lemma UnforcedHandsOutNoGhost(s: Store, root: Path, ttl: int, calls: seq<Call>, since: int)
    requires Coherent(s, ttl, since) && InOrder(calls, since) && forall k :: 0 <= k < |calls| ==> !calls[k].refresh
    ensures NeverAGhost(s, root, ttl, calls, since)
  {
    UnforcedNeverBreaks(s, root, ttl, calls);
    NeverAGhostIff(s, root, ttl, calls, since);
  }

  /** The smallest such refresh. */
  lemma FailedRefreshLeavesAGhost(root: Path, ttl: int, t: TenantId, entries: seq<Entry>, now: int)
    requires 0 < ttl && entries != []
    ensures var s := Store(map[t := Bundle(t, entries, now)], map[t := entries]);
            var (s1, first) := Ensure(s, root, ttl, t, true, now, NotAnArchive);
            var (s2, second) := Ensure(s1, root, ttl, t, false, now, NoAnswer);
            Coherent(s, ttl, now) && first.None? && second == Some(Bundle(t, entries, now)) && s2.disk[t] == []
  {
  }
}

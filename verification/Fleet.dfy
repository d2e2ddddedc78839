/**
 The runner process: matching the dispatchers to the tenants wanted, and one pass over all of them
 (flow_runner/__main__.py:68-196).
 */
module Fleet {
  import opened Options
  import opened RecordLayer
  import opened Dispatching
  import opened Bootstrap
  import opened Minting

  /** What reading the operator's credentials comes to: `CannotRead` is one of the exceptions `reconcile`
      catches, `Strange` any other. */
  datatype Credentials = Loaded(entries: seq<Credential>) | CannotRead | Strange

  /** What one reconcile is to do. */
  datatype Plan = KeepCurrent | Raise | Serve(keys: Keys)

  function PlanFor(bootstraps: bool, credentials: Credentials, resolution: Resolution): Plan {
    match credentials
    case CannotRead => KeepCurrent
    case Strange => Raise
    case Loaded(entries) =>
      if !bootstraps then Serve(ByTenant(entries))
      else if resolution.wanted.None? then Raise
      else Serve(resolution.wanted.value)
  }

  /** The resolution a pass performs; none when it never gets that far. */
  function ResolutionFor(bootstraps: bool, hasFile: bool, credentials: Credentials, listing: Listing, file: StateFile,
                         writing: Writing): Resolution
  {
    if bootstraps && credentials.Loaded? then Resolve(hasFile, credentials.entries, listing, file, writing)
    else Resolution(None, file, [])
  }

  /** What one pass of the process meets on its way to a set of dispatchers. */
  datatype FleetPass = FleetPass(credentials: Credentials, listing: Listing, writing: Writing)

  function PlanOf(bootstraps: bool, hasFile: bool, file: StateFile, pass: FleetPass): Plan {
    PlanFor(bootstraps, pass.credentials,
            ResolutionFor(bootstraps, hasFile, pass.credentials, pass.listing, file, pass.writing))
  }

  function FileAfter(bootstraps: bool, hasFile: bool, file: StateFile, pass: FleetPass): StateFile {
    ResolutionFor(bootstraps, hasFile, pass.credentials, pass.listing, file, pass.writing).file
  }

  /** Without a bootstrap token the operator's file is the whole tenant set: each tenant it names, under the
      last key written for it. The control plane is not asked, and the state file not touched. */
  lemma OperatorsFileIsAll(hasFile: bool, file: StateFile, pass: FleetPass, t: TenantId)
    requires pass.credentials.Loaded?
    ensures var plan, entries := PlanOf(false, hasFile, file, pass), pass.credentials.entries;
            && FileAfter(false, hasFile, file, pass) == file && plan.Serve?
            && (t in plan.keys <==> exists k :: LastLine(entries, t, k))
            && forall k :: LastLine(entries, t, k) ==> plan.keys[t] == entries[k].key
  {
    OperatorsTenants(pass.credentials.entries, t);
  }

  /** With one, the pass serves what `resolve_tenants` resolves, or raises with it. */
  lemma TokenResolves(hasFile: bool, file: StateFile, pass: FleetPass)
    requires pass.credentials.Loaded?
    ensures var r := Resolve(hasFile, pass.credentials.entries, pass.listing, file, pass.writing);
            && FileAfter(true, hasFile, file, pass) == r.file
            && PlanOf(true, hasFile, file, pass) == if r.wanted.Some? then Serve(r.wanted.value) else Raise
  {
  }

  /** Credentials that cannot be read keep everything as it is; anything stranger raises. Neither gets as far
      as the state file. */
  lemma UnreadableCredentials(bootstraps: bool, hasFile: bool, file: StateFile, pass: FleetPass)
    requires !pass.credentials.Loaded?
    ensures FileAfter(bootstraps, hasFile, file, pass) == file
    ensures PlanOf(bootstraps, hasFile, file, pass) == if pass.credentials.CannotRead? then KeepCurrent else Raise
  {
  }

  // ----- calls do not matter to anybody else -----------------------------------------------------

  lemma TurnIgnoresCalls(cfg: Config, sub: Subscription, st: SubscriptionState, queue: nat, run: nat, look: Look,
                         db: Records, a: seq<SubId>, b: seq<SubId>)
    ensures var x := AgentTurn(cfg, sub, st, queue, run, look, World(db, a));
            var y := AgentTurn(cfg, sub, st, queue, run, look, World(db, b));
            x.state == y.state && x.w.db == y.w.db && x.ending == y.ending
  {
  }

  lemma FailedCheckIgnoresCalls(cfg: Config, sub: Subscription, st: SubscriptionState, look: Look, db: Records,
                                a: seq<SubId>, b: seq<SubId>)
    ensures var x, y := FailedCheck(cfg, sub, st, look, World(db, a)), FailedCheck(cfg, sub, st, look, World(db, b));
            x.state == y.state && x.w.db == y.w.db && x.ending == y.ending
  {
  }

  lemma DispatchIgnoresCalls(cfg: Config, sub: Subscription, st: SubscriptionState, look: Look, db: Records,
                             a: seq<SubId>, b: seq<SubId>)
    ensures var x, y := Dispatch(cfg, sub, st, look, World(db, a)), Dispatch(cfg, sub, st, look, World(db, b));
            x.state == y.state && x.w.db == y.w.db && x.ending == y.ending
  {
    if ChecksFail(look) {
      FailedCheckIgnoresCalls(cfg, sub, st, look, db, a, b);
    } else if FindsWork(look) {
      var (db1, openReply) := Send(look.open, db, HandleOpen(db, WorkRow(sub, look.queue.value)));
      if openReply.Got? {
        TurnIgnoresCalls(cfg, sub, st, look.queue.value, openReply.value, look, db1, a, b);
      }
    }
  }

  lemma VisitIgnoresCalls(cfg: Config, now: int, item: Item, state: Hints, db: Records, a: seq<SubId>, b: seq<SubId>)
    ensures var x, y := VisitItem(cfg, now, item, state, World(db, a)), VisitItem(cfg, now, item, state, World(db, b));
            x.state == y.state && x.w.db == y.w.db && x.ending == y.ending
  {
    var st := Stamp(state, item.sub.id, now)[item.sub.id];
    DispatchIgnoresCalls(cfg, item.sub, st, item.look, ClearParks(db, item.cleared), a, b);
  }

  /** What a pass does to its own tenant does not depend on who else the adapter has worked for. */
  lemma {:induction false} PollIgnoresCalls(cfg: Config, now: int, items: seq<Item>, state: Hints, db: Records,
                                            a: seq<SubId>, b: seq<SubId>)
    ensures var x, y := PollFrom(cfg, now, items, state, World(db, a)), PollFrom(cfg, now, items, state, World(db, b));
            x.state == y.state && x.w.db == y.w.db && x.rows == y.rows
    decreases |items|
  {
    if items != [] {
      VisitIgnoresCalls(cfg, now, items[0], state, db, a, b);
      var x := VisitItem(cfg, now, items[0], state, World(db, a));
      var y := VisitItem(cfg, now, items[0], state, World(db, b));
      if !x.Stops() {
        PollIgnoresCalls(cfg, now, items[1..], x.state, x.w.db, x.w.calls, y.w.calls);
      }
    }
  }

  /** One tenant's turn in a pass over the fleet: its clock and what its listing answers. */
  datatype Turn = Turn(now: int, listing: Reply<seq<Item>>)

  /** One tenant's pass on its own. */
  function Alone(cfg: Config, turn: Turn, start: (Hints, Records)): Pass {
    Poll(cfg, turn.now, turn.listing, start.0, World(start.1, []))
  }

  // ----- how long a dispatcher lasts -------------------------------------------------------------

  /** A dispatcher's key, and the pass that built it; passes are numbered from one, and zero means before. */
  datatype Slot = Slot(key: Key, built: nat)

  type Slots = map<TenantId, Slot>

  /** What `Runner.Match` does in pass p, by value. */
  function Matched(slots: Slots, keys: Keys, p: nat): Slots {
    map t | t in keys :: if t in slots && slots[t].key == keys[t] then slots[t] else Slot(keys[t], p)
  }

  /** The tenant has the same slot before and after. */
  predicate Same(before: Slots, after: Slots, t: TenantId) {
    t in before && t in after && before[t] == after[t]
  }

  /** `seen` are the dispatchers before the passes and after each; two of them for one tenant are one and
      the same object exactly when one pass built both. */
  predicate Tracks(seen: seq<map<TenantId, Dispatcher>>, marks: seq<Slots>) {
    && |seen| == |marks|
    && (forall p :: 0 <= p < |seen| ==>
         seen[p].Keys == marks[p].Keys && forall t :: t in seen[p] ==> seen[p][t].apiKey == marks[p][t].key)
    && forall p, q, t :: 0 <= p < |seen| && 0 <= q < |seen| && t in seen[p] && t in seen[q] ==>
         (seen[p][t] == seen[q][t] <==> marks[p][t].built == marks[q][t].built)
  }

  predicate BuiltBy(marks: seq<Slots>, p: nat) {
    forall i, t :: 0 <= i < |marks| && t in marks[i] ==> marks[i][t].built <= p
  }

  /** One more pass: each dispatcher is the last one where its key stands, else one never seen before. */
  lemma TracksOneMore(seen: seq<map<TenantId, Dispatcher>>, marks: seq<Slots>, keys: Keys,
                      next: map<TenantId, Dispatcher>, p: nat)
    requires Tracks(seen, marks) && BuiltBy(marks, p) && seen != [] && next.Keys == keys.Keys
    requires var last := seen[|seen| - 1];
             forall t :: t in keys ==>
               && next[t].apiKey == keys[t]
               && (if t in last && last[t].apiKey == keys[t] then next[t] == last[t]
                   else forall i :: 0 <= i < |seen| && t in seen[i] ==> seen[i][t] != next[t])
    ensures var marks' := marks + [Matched(marks[|marks| - 1], keys, p + 1)];
            Tracks(seen + [next], marks') && BuiltBy(marks', p + 1)
  {
  }

  function Planned(slots: Slots, plan: Plan, p: nat): Slots {
    match plan
    case Serve(keys) => Matched(slots, keys, p)
    case _ => slots
  }

  /** The slots before the passes and after each, from this state file; a pass that raises ends the process. */
  function MarksOf(slots: Slots, bootstraps: bool, hasFile: bool, file: StateFile, passes: seq<FleetPass>, p: nat)
    : (marks: seq<Slots>)
    ensures marks != [] && marks[0] == slots
    decreases |passes|
  {
    [slots] +
    if passes == [] then []
    else
      var plan := PlanOf(bootstraps, hasFile, file, passes[0]);
      if plan.Raise? then []
      else
        MarksOf(Planned(slots, plan, p), bootstraps, hasFile, FileAfter(bootstraps, hasFile, file, passes[0]),
                passes[1..], p + 1)
  }

  function Loads(passes: seq<BootPass>): (loads: seq<FleetPass>)
    ensures |loads| == |passes|
    ensures forall i :: 0 <= i < |passes| ==>
      loads[i] == FleetPass(Loaded(passes[i].configured), passes[i].listing, passes[i].writing)
  {
    seq(|passes|, i requires 0 <= i < |passes| =>
      FleetPass(Loaded(passes[i].configured), passes[i].listing, passes[i].writing))
  }

  /** The slots before and after passes with a token whose credentials load, by what each resolved. */
  function Marks(slots: Slots, rs: seq<Resolution>, p: nat): (marks: seq<Slots>)
    ensures marks != [] && marks[0] == slots
    decreases |rs|
  {
    [slots] +
    if rs == [] || rs[0].wanted.None? then [] else Marks(Matched(slots, rs[0].wanted.value, p), rs[1..], p + 1)
  }

  function BootMarks(slots: Slots, hasFile: bool, file: StateFile, passes: seq<BootPass>, p: nat): (marks: seq<Slots>)
    ensures marks != [] && marks[0] == slots
  {
    Marks(slots, ResolveAll(hasFile, file, passes), p)
  }

  lemma BootMarksHead(slots: Slots, hasFile: bool, file: StateFile, passes: seq<BootPass>, p: nat)
    requires passes != []
    ensures var r := ResolvePass(hasFile, file, passes[0]);
            BootMarks(slots, hasFile, file, passes, p)
            == [slots] + if r.wanted.None? then []
                         else BootMarks(Matched(slots, r.wanted.value, p), hasFile, r.file, passes[1..], p + 1)
  {
    ResolveAllHead(hasFile, file, passes);
  }

  /** They are what the process leaves. */
  lemma {:induction false} LoadsAreBoots(slots: Slots, hasFile: bool, file: StateFile, passes: seq<BootPass>, p: nat)
    ensures MarksOf(slots, true, hasFile, file, Loads(passes), p) == BootMarks(slots, hasFile, file, passes, p)
    decreases |passes|
  {
    if passes != [] {
      var r := ResolvePass(hasFile, file, passes[0]);
      TokenResolves(hasFile, file, Loads(passes)[0]);
      BootMarksHead(slots, hasFile, file, passes, p);
      assert Loads(passes)[1..] == Loads(passes[1..]);
      if r.wanted.Some? {
        LoadsAreBoots(Matched(slots, r.wanted.value, p), hasFile, r.file, passes[1..], p + 1);
      }
    }
  }

  /** What it takes for a tenant's slot to stand from here on. */
  lemma {:induction false} MarkStands(file: StateFile, passes: seq<BootPass>, slots: Slots, p: nat, t: TenantId)
    requires forall i :: 0 <= i < |passes| ==> StaysListed(passes[i], t) && passes[i].listing.Listed?
    requires t in slots && t in Memory(true, file) && Memory(true, file)[t] == slots[t].key
    ensures var marks := BootMarks(slots, true, file, passes, p);
            forall q :: 0 <= q < |marks| ==> t in marks[q] && marks[q][t] == slots[t]
    decreases |passes|
  {
    if passes != [] {
      var r := ResolvePass(true, file, passes[0]);
      KeyStands(file, passes[0], t, slots[t].key);
      BootMarksHead(slots, true, file, passes, p);
      if r.wanted.Some? {
        MarkStands(r.file, passes[1..], Matched(slots, r.wanted.value, p), p + 1, t);
      }
    }
  }

  lemma ServedIsRemembered(file: StateFile, pass: BootPass, t: TenantId)
    requires StaysListed(pass, t) && pass.listing.Listed? && Serves(ResolvePass(true, file, pass), t)
    ensures var r := ResolvePass(true, file, pass);
            t in Memory(true, r.file) && Memory(true, r.file)[t] == r.wanted.value[t]
  {
    if t in Memory(true, file) {
      KeyStands(file, pass, t, Memory(true, file)[t]);
    } else {
      FirstIssue(file, pass, t);
    }
  }

  /** From the first pass that serves it on, its slot stands. */
  lemma MarkStandsOnceServed(slots: Slots, file: StateFile, passes: seq<BootPass>, t: TenantId, q: nat)
    requires forall i :: 0 <= i < |passes| ==> StaysListed(passes[i], t) && passes[i].listing.Listed?
    requires passes != [] && Serves(ResolvePass(true, file, passes[0]), t)
    requires 1 <= q < |BootMarks(slots, true, file, passes, 1)|
    ensures var marks := BootMarks(slots, true, file, passes, 1);
            t in marks[1] && t in marks[q] && marks[q][t] == marks[1][t]
  {
    var r := ResolvePass(true, file, passes[0]);
    var next := Matched(slots, r.wanted.value, 1);
    ServedIsRemembered(file, passes[0], t);
    BootMarksHead(slots, true, file, passes, 1);
    MarkStands(r.file, passes[1..], next, 2, t);
    var rest := BootMarks(next, true, r.file, passes[1..], 2);
    assert BootMarks(slots, true, file, passes, 1)[q] == rest[q - 1];
  }

  /** With a working state file, the dispatcher a listed tenant is served by in one pass is the very object
      that serves it in every later pass whose listing answers, cadence timers and all. */
  lemma DispatcherLasts(seen: seq<map<TenantId, Dispatcher>>, slots: Slots, file: StateFile, passes: seq<BootPass>,
                        t: TenantId, q: nat)
    requires Tracks(seen, BootMarks(slots, true, file, passes, 1))
    requires forall i :: 0 <= i < |passes| ==> StaysListed(passes[i], t) && passes[i].listing.Listed?
    requires passes != [] && Serves(ResolvePass(true, file, passes[0]), t) && 1 <= q < |seen|
    ensures t in seen[1] && t in seen[q] && seen[q][t] == seen[1][t]
  {
    MarkStandsOnceServed(slots, file, passes, t, q);
  }

  /** One failed listing is enough to lose it: the tenant is without a dispatcher for that pass, and the one
      it gets next is a new object. */
  lemma FailedListingDropsDispatcher(seen: seq<map<TenantId, Dispatcher>>, slots: Slots, file: StateFile,
                                     failing: BootPass,
                                     after: BootPass, t: TenantId)
    requires Tracks(seen, BootMarks(slots, true, file, [failing, after], 1)) && BuiltBy([slots], 0)
    requires StaysListed(failing, t) && failing.listing.Unreachable?
    requires StaysListed(after, t) && after.listing.Listed? && t in Memory(true, file)
    requires ResolvePass(true, file, after).wanted.Some?
    ensures |seen| == 3 && t !in seen[1] && t in seen[2] && seen[2][t].apiKey == Memory(true, file)[t]
    ensures t in seen[0] ==> seen[2][t] != seen[0][t]
  {
    var r := ResolvePass(true, file, failing);
    var dropped := Matched(slots, r.wanted.value, 1);
    KeyStands(file, after, t, Memory(true, file)[t]);
    assert [failing, after][1..] == [after] && [after][1..] == [];
    BootMarksHead(slots, true, file, [failing, after], 1);
    BootMarksHead(dropped, true, r.file, [after], 2);
    assert t !in dropped;
  }

  /** Exactly the dispatchers of the operator's tenants survive a failed listing, and of those the ones that
      run under the operator's key already. */
  lemma FailedListingKeepsExactly(seen: seq<map<TenantId, Dispatcher>>, slots: Slots, hasFile: bool, file: StateFile,
                                  pass: BootPass, t: TenantId)
    requires Tracks(seen, BootMarks(slots, hasFile, file, [pass], 1)) && BuiltBy([slots], 0)
    requires pass.listing.Unreachable? && t in slots
    ensures |seen| == 2
    ensures t in seen[1] && seen[1][t] == seen[0][t] <==>
      t in ByTenant(pass.configured) && ByTenant(pass.configured)[t] == seen[0][t].apiKey
  {
    BootMarksHead(slots, hasFile, file, [pass], 1);
    assert [pass][1..] == [] && [slots][0] == slots;
  }

  /** Pass i's answer about `t`. */
  function KeyHeard(pass: BootPass, t: TenantId): Option<Key> {
    if pass.listing.Listed? then FirstKey(pass.listing.rows, t) else None
  }

  lemma {:induction false} MarkMoves(hasFile: bool, file: StateFile, passes: seq<BootPass>, slots: Slots, p: nat,
                                     t: TenantId, q: nat)
    requires AllAble(hasFile, file, passes, t) && NeverKept(hasFile, passes, t) && t !in Memory(hasFile, file)
    requires forall i, j :: 0 <= i < j < |passes| ==> KeyHeard(passes[i], t) != KeyHeard(passes[j], t)
    requires passes != [] && t in slots ==> Some(slots[t].key) != KeyHeard(passes[0], t)
    requires 0 < q <= |passes|
    ensures var marks := BootMarks(slots, hasFile, file, passes, p);
            |marks| == |passes| + 1 && t in marks[q] && marks[q][t].built == p + q - 1
    decreases |passes|
  {
    var r := ResolvePass(hasFile, file, passes[0]);
    ForgettingPass(hasFile, file, passes[0], t);
    BootMarksHead(slots, hasFile, file, passes, p);
    var next := Matched(slots, r.wanted.value, p);
    assert Some(r.wanted.value[t]) == KeyHeard(passes[0], t) && next[t] == Slot(r.wanted.value[t], p);
    if |passes| > 1 {
      MarkMoves(hasFile, r.file, passes[1..], next, p + 1, t, if q > 1 then q - 1 else 1);
    } else {
      assert BootMarks(next, hasFile, r.file, passes[1..], p + 1) == [next];
    }
  }

  /** Where no pass keeps its keys, and a control plane that never issues a key twice, no dispatcher outlives
      its pass: every pass serves the tenant with another object. */
  lemma ForgettingRebuildsEveryPass(seen: seq<map<TenantId, Dispatcher>>, slots: Slots, hasFile: bool, file: StateFile,
                                    passes: seq<BootPass>, t: TenantId, i: nat, j: nat)
    requires Tracks(seen, BootMarks(slots, hasFile, file, passes, 1))
    requires AllAble(hasFile, file, passes, t) && NeverKept(hasFile, passes, t) && t !in Memory(hasFile, file)
    requires forall i, j :: 0 <= i < j < |passes| ==> KeyHeard(passes[i], t) != KeyHeard(passes[j], t)
    requires passes != [] && t in slots ==> Some(slots[t].key) != KeyHeard(passes[0], t)
    requires 0 < i < j <= |passes|
    ensures j < |seen| && t in seen[i] && t in seen[j] && seen[i][t] != seen[j][t]
  {
    MarkMoves(hasFile, file, passes, slots, 1, t, i);
    MarkMoves(hasFile, file, passes, slots, 1, t, j);
  }

  /** The slots of the dispatchers a runner has now. */
  function Present(dispatchers: map<TenantId, Dispatcher>): Slots {
    map t | t in dispatchers :: Slot(dispatchers[t].apiKey, 0)
  }

  // ----- the tenants of a pass, and their stores -------------------------------------------------

  /** The tenants the operator or the listing names. */
  function Named(configured: seq<Credential>, listing: Listing): set<TenantId> {
    (set k | 0 <= k < |configured| :: configured[k].tenant)
    + if listing.Listed? then set k | 0 <= k < |listing.rows| :: listing.rows[k].tenant else {}
  }

  predicate NamesKnown(pass: FleetPass, known: set<TenantId>) {
    pass.credentials.Loaded? ==> Named(pass.credentials.entries, pass.listing) <= known
  }

  predicate AllNamed(passes: seq<FleetPass>, known: set<TenantId>) {
    forall p :: 0 <= p < |passes| ==> NamesKnown(passes[p], known)
  }

  /** Nobody else is ever served. */
  lemma WantedAreNamed(hasFile: bool, configured: seq<Credential>, listing: Listing, file: StateFile,
                       writing: Writing)
    ensures ByTenant(configured).Keys <= Named(configured, listing)
    ensures var wanted := Resolve(hasFile, configured, listing, file, writing).wanted;
            wanted.Some? ==> wanted.value.Keys <= Named(configured, listing)
  {
    forall t | t in ByTenant(configured)
      ensures t in Named(configured, listing)
    {
      OperatorsTenants(configured, t);
    }
    var wanted := Resolve(hasFile, configured, listing, file, writing).wanted;
    if wanted.Some? && listing.Listed? {
      forall t | t in wanted.value
        ensures t in Named(configured, listing)
      {
        WantedExactly(hasFile, configured, listing, file, writing, t);
        FirstKeyIsListed(listing.rows, t);
      }
    }
  }

  /** Each tenant in `known` has a record layer of its own. */
  ghost predicate OneEach(stores: TenantId -> RecordStore, known: set<TenantId>) {
    forall t, u :: t in known && u in known && t != u ==> stores(t) != stores(u)
  }

  lemma TracksAsBefore(seen: seq<map<TenantId, Dispatcher>>, marks: seq<Slots>, p: nat)
    requires Tracks(seen, marks) && BuiltBy(marks, p) && seen != []
    ensures Tracks(seen + [seen[|seen| - 1]], marks + [marks[|marks| - 1]])
    ensures BuiltBy(marks + [marks[|marks| - 1]], p + 1)
  {
  }

  /** One reconcile, with the dispatchers of all passes so far still told apart. */
  method ReconcileOnce(r: Runner, pass: FleetPass, stores: TenantId -> RecordStore,
                       ghost known: set<TenantId>, ghost seen: seq<map<TenantId, Dispatcher>>,
                       ghost marks: seq<Slots>, ghost k: nat)
      returns (ghost seen': seq<map<TenantId, Dispatcher>>, ghost marks': seq<Slots>, raised: bool)
    requires r.Valid() && r.OwnStores(stores, known) && NamesKnown(pass, known)
    requires seen != [] && seen[|seen| - 1] == r.dispatchers && Tracks(seen, marks) && BuiltBy(marks, k)
    modifies r, r.boot
    ensures r.Valid() && r.OwnStores(stores, known)
    ensures var plan := PlanOf(r.bootstraps, r.boot.hasFile, old(r.boot.file), pass);
            && r.boot.file == FileAfter(r.bootstraps, r.boot.hasFile, old(r.boot.file), pass)
            && (raised <==> plan.Raise?)
            && (if raised then seen' == seen && marks' == marks
                else seen' == seen + [r.dispatchers]
                     && marks' == marks + [Planned(marks[|marks| - 1], plan, k + 1)])
    ensures seen'[|seen'| - 1] == r.dispatchers && Tracks(seen', marks') && BuiltBy(marks', k + 1)
  {
    ghost var plan := PlanOf(r.bootstraps, r.boot.hasFile, r.boot.file, pass);
    raised := r.Reconcile(pass.credentials, pass.listing, pass.writing, stores, known);
    seen', marks' := seen, marks;
    if !raised {
      if plan.Serve? {
        TracksOneMore(seen, marks, plan.keys, r.dispatchers, k);
      } else {
        TracksAsBefore(seen, marks, k);
      }
      seen' := seen + [r.dispatchers];
      marks' := marks + [Planned(marks[|marks| - 1], plan, k + 1)];
    }
  }

  /** The passes done so far have left `marks`; the passes still to do, from this state file, make it `whole`. */
  ghost predicate Halfway(whole: seq<Slots>, marks: seq<Slots>, bootstraps: bool, hasFile: bool, file: StateFile,
                          passes: seq<FleetPass>, k: nat)
  {
    && marks != [] && k <= |passes|
    && marks + MarksOf(marks[|marks| - 1], bootstraps, hasFile, file, passes[k..], k + 1)[1..] == whole
  }

  lemma HalfwayOneMore(whole: seq<Slots>, marks: seq<Slots>, bootstraps: bool, hasFile: bool, file: StateFile,
                       passes: seq<FleetPass>, k: nat)
    requires k < |passes| && Halfway(whole, marks, bootstraps, hasFile, file, passes, k)
    ensures var plan := PlanOf(bootstraps, hasFile, file, passes[k]);
            if plan.Raise? then marks == whole
            else
              Halfway(whole, marks + [Planned(marks[|marks| - 1], plan, k + 1)], bootstraps, hasFile,
                      FileAfter(bootstraps, hasFile, file, passes[k]), passes, k + 1)
  {
    assert passes[k..][0] == passes[k] && passes[k..][1..] == passes[k + 1..];
  }

  lemma HalfwayDone(whole: seq<Slots>, marks: seq<Slots>, bootstraps: bool, hasFile: bool, file: StateFile,
                    passes: seq<FleetPass>)
    requires Halfway(whole, marks, bootstraps, hasFile, file, passes, |passes|)
    ensures marks == whole
  {
  }

  /** The passes done, or cut off by one that raised, have left `marks`. */
  ghost predicate Underway(whole: seq<Slots>, marks: seq<Slots>, raised: bool, bootstraps: bool, hasFile: bool,
                           file: StateFile, passes: seq<FleetPass>, k: nat)
  {
    if raised then marks == whole
    else |marks| == k + 1 && Halfway(whole, marks, bootstraps, hasFile, file, passes, k)
  }

  /** One pass of the loop below. */
  method ReconcileStep(r: Runner, passes: seq<FleetPass>, k: nat, stores: TenantId -> RecordStore,
                       ghost known: set<TenantId>, ghost whole: seq<Slots>,
                       ghost seen: seq<map<TenantId, Dispatcher>>, ghost marks: seq<Slots>)
      returns (ghost seen': seq<map<TenantId, Dispatcher>>, ghost marks': seq<Slots>, raised: bool)
    requires r.Valid() && r.OwnStores(stores, known) && AllNamed(passes, known) && k < |passes|
    requires seen != [] && seen[|seen| - 1] == r.dispatchers && Tracks(seen, marks) && BuiltBy(marks, k)
    requires Underway(whole, marks, false, r.bootstraps, r.boot.hasFile, r.boot.file, passes, k)
    modifies r, r.boot
    ensures r.Valid() && r.OwnStores(stores, known)
    ensures seen' != [] && seen'[0] == seen[0] && seen'[|seen'| - 1] == r.dispatchers
    ensures Tracks(seen', marks') && BuiltBy(marks', k + 1)
    ensures Underway(whole, marks', raised, r.bootstraps, r.boot.hasFile, r.boot.file, passes, k + 1)
  {
    HalfwayOneMore(whole, marks, r.bootstraps, r.boot.hasFile, r.boot.file, passes, k);
    seen', marks', raised := ReconcileOnce(r, passes[k], stores, known, seen, marks, k);
  }

  /** The loop itself, from any point of the run. */
  method ReconcileFrom(r: Runner, passes: seq<FleetPass>, start: nat, stores: TenantId -> RecordStore,
                       ghost known: set<TenantId>, ghost whole: seq<Slots>,
                       ghost before: seq<map<TenantId, Dispatcher>>, ghost marks: seq<Slots>)
      returns (ghost seen: seq<map<TenantId, Dispatcher>>, raised: bool)
    requires r.Valid() && r.OwnStores(stores, known) && AllNamed(passes, known) && start <= |passes|
    requires before != [] && before[|before| - 1] == r.dispatchers && Tracks(before, marks) && BuiltBy(marks, start)
    requires Underway(whole, marks, false, r.bootstraps, r.boot.hasFile, r.boot.file, passes, start)
    modifies r, r.boot
    ensures r.Valid() && r.OwnStores(stores, known)
    ensures seen != [] && seen[0] == before[0] && seen[|seen| - 1] == r.dispatchers && Tracks(seen, whole)
  {
    raised := false;
    seen := before;
    ghost var marks := marks;
    var k := start;
    while k < |passes| && !raised
      invariant start <= k <= |passes| && r.Valid() && r.OwnStores(stores, known)
      invariant seen != [] && seen[0] == before[0] && seen[|seen| - 1] == r.dispatchers
      invariant Tracks(seen, marks) && BuiltBy(marks, k)
      invariant Underway(whole, marks, raised, r.bootstraps, r.boot.hasFile, r.boot.file, passes, k)
    {
      seen, marks, raised := ReconcileStep(r, passes, k, stores, known, whole, seen, marks);
      k := k + 1;
    }
    if !raised {
      HalfwayDone(whole, marks, r.bootstraps, r.boot.hasFile, r.boot.file, passes);
    }
  }

  /** The credential half of the pass loop: one reconcile a pass, with or without a token, whatever reading
      the credentials comes to. What the passes poll in between touches neither the runner nor its state
      file. */
  method ReconcileAll(r: Runner, passes: seq<FleetPass>, stores: TenantId -> RecordStore, ghost known: set<TenantId>)
      returns (ghost seen: seq<map<TenantId, Dispatcher>>, raised: bool)
    requires r.Valid() && r.OwnStores(stores, known) && AllNamed(passes, known)
    modifies r, r.boot
    ensures r.Valid() && r.OwnStores(stores, known)
    ensures seen != [] && seen[0] == old(r.dispatchers) && seen[|seen| - 1] == r.dispatchers
    ensures var present := Present(old(r.dispatchers));
            Tracks(seen, MarksOf(present, r.bootstraps, r.boot.hasFile, old(r.boot.file), passes, 1))
    ensures forall t :: t in old(r.dispatchers) ==> old(r.dispatchers)[t].state == old(r.dispatchers[t].state)
  {
    ghost var slots := Present(r.dispatchers);
    ghost var whole := MarksOf(slots, r.bootstraps, r.boot.hasFile, r.boot.file, passes, 1);
    assert passes[0..] == passes && [slots] + whole[1..] == whole;
    seen, raised := ReconcileFrom(r, passes, 0, stores, known, whole, [r.dispatchers], [slots]);
  }

  /** A tenant's hints and records. */
  function Standing(d: Dispatcher): (Hints, Records)
    reads d, d.client
  {
    (d.state, d.client.Db())
  }

  /** One tenant's turn; `raised` is what the pass loop catches and logs. */
  method PollOne(d: Dispatcher, turn: Turn) returns (raised: bool)
    modifies d, d.client, d.adapter
    ensures var p := Alone(d.cfg, turn, old(Standing(d)));
            Standing(d) == (p.state, p.w.db) && raised == p.rows.None?
  {
    ghost var start, calls := Standing(d), d.adapter.calls;
    var rows := d.PollOnce(turn.now, turn.listing);
    if turn.listing.Got? {
      PollIgnoresCalls(d.cfg, turn.now, turn.listing.value, start.0, start.1, calls, []);
    }
    raised := rows.None?;
  }

  /** No two of the dispatchers share an object or a client; they share one adapter. */
  ghost predicate Separate(ds: seq<Dispatcher>, clients: seq<RecordStore>, adapter: AgentAdapter) {
    && |clients| == |ds|
    && (forall i :: 0 <= i < |ds| ==> ds[i].client == clients[i] && ds[i].adapter == adapter)
    && forall i, j :: 0 <= i < j < |ds| ==> ds[i] != ds[j] && clients[i] != clients[j]
  }

  /** One pass over the fleet. Every tenant is polled once, exactly as it would be on its own; `failed`
      says whose pass raised, and that failure reaches nobody else. */
  method PollAll(ds: seq<Dispatcher>, turns: seq<Turn>, ghost clients: seq<RecordStore>, adapter: AgentAdapter)
      returns (failed: seq<bool>)
    requires Separate(ds, clients, adapter) && |turns| == |ds|
    modifies ds, clients, adapter
    ensures |failed| == |ds|
    ensures forall i :: 0 <= i < |ds| ==>
      var p := Alone(ds[i].cfg, turns[i], old(Standing(ds[i])));
      Standing(ds[i]) == (p.state, p.w.db) && failed[i] == p.rows.None?
  {
    failed := [];
    for k := 0 to |ds|
      invariant |failed| == k
      invariant forall i :: k <= i < |ds| ==> Standing(ds[i]) == old(Standing(ds[i]))
      invariant forall i :: 0 <= i < k ==>
        var p := Alone(ds[i].cfg, turns[i], old(Standing(ds[i])));
        Standing(ds[i]) == (p.state, p.w.db) && failed[i] == p.rows.None?
    {
      assert ds[k].client == clients[k];
      var raised := PollOne(ds[k], turns[k]);
      failed := failed + [raised];
    }
  }

  class Runner {
    const cfg: Config
    const adapter: AgentAdapter
    const boot: Bootstrapper
    const bootstraps: bool
    var dispatchers: map<TenantId, Dispatcher>

    constructor (cfg: Config, adapter: AgentAdapter, boot: Bootstrapper, bootstraps: bool)
      ensures this.cfg == cfg && this.adapter == adapter && this.boot == boot && this.bootstraps == bootstraps
      ensures dispatchers == map[] && Valid()
    {
      this.cfg := cfg;
      this.adapter := adapter;
      this.boot := boot;
      this.bootstraps := bootstraps;
      dispatchers := map[];
    }

    /** One dispatcher and one client per tenant, one adapter for all. */
    ghost predicate Valid()
      reads this
    {
      && (forall t :: t in dispatchers ==> dispatchers[t].adapter == adapter && dispatchers[t].cfg == cfg)
      && (forall t, u :: t in dispatchers && u in dispatchers && t != u ==>
            dispatchers[t] != dispatchers[u] && dispatchers[t].client != dispatchers[u].client)
    }

    /** `stores` are the record layers of the tenants in `known`, as seen from outside: one each. */
    ghost predicate OwnStores(stores: TenantId -> RecordStore, known: set<TenantId>)
      reads this
    {
      && OneEach(stores, known)
      && forall t :: t in dispatchers ==> t in known && dispatchers[t].client == stores(t)
    }

    method Reconcile(credentials: Credentials, listing: Listing, writing: Writing, stores: TenantId -> RecordStore,
                     ghost known: set<TenantId>)
        returns (raised: bool)
      requires Valid() && OwnStores(stores, known)
      requires credentials.Loaded? ==> Named(credentials.entries, listing) <= known
      modifies this, boot
      ensures Valid() && OwnStores(stores, known)
      ensures var r := ResolutionFor(bootstraps, boot.hasFile, credentials, listing, old(boot.file), writing);
              && boot.file == r.file
              && match PlanFor(bootstraps, credentials, r)
                 case KeepCurrent => !raised && dispatchers == old(dispatchers)
                 case Raise => raised && dispatchers == old(dispatchers)
                 case Serve(keys) =>
                   && !raised && dispatchers.Keys == keys.Keys
                   && forall t :: t in keys ==>
                        && dispatchers[t].apiKey == keys[t]
                        && (if t in old(dispatchers) && old(dispatchers)[t].apiKey == keys[t]
                            then dispatchers[t] == old(dispatchers)[t]
                            else fresh(dispatchers[t]) && dispatchers[t].state == map[])
    {
      if !credentials.Loaded? {
        return credentials.Strange?;
      }
      var wanted := Some(ByTenant(credentials.entries));
      if bootstraps {
        wanted := boot.ResolveTenants(credentials.entries, listing, writing);
      }
      if wanted.None? {
        return true;
      }
      raised := false;
      WantedAreNamed(boot.hasFile, credentials.entries, listing, old(boot.file), writing);
      var updated := Match(wanted.value, stores, known);
      dispatchers := updated;
    }

    /** The dispatchers for `keys`: the present one where its key still stands, else a new one. */
    method Match(keys: Keys, stores: TenantId -> RecordStore, ghost known: set<TenantId>)
        returns (updated: map<TenantId, Dispatcher>)
      requires Valid() && OwnStores(stores, known) && keys.Keys <= known
      ensures updated.Keys == keys.Keys
      ensures forall t :: t in keys ==>
        && updated[t].adapter == adapter && updated[t].cfg == cfg && updated[t].client == stores(t)
        && updated[t].apiKey == keys[t]
        && (if t in dispatchers && dispatchers[t].apiKey == keys[t] then updated[t] == dispatchers[t]
            else fresh(updated[t]) && updated[t].state == map[])
    {
      var pending := keys.Keys;
      updated := map[];
      while pending != {}
        invariant pending <= keys.Keys && updated.Keys == keys.Keys - pending
        invariant forall t :: t in updated ==>
          && updated[t].adapter == adapter && updated[t].cfg == cfg && updated[t].client == stores(t)
          && updated[t].apiKey == keys[t]
          && (if t in dispatchers && dispatchers[t].apiKey == keys[t] then updated[t] == dispatchers[t]
              else fresh(updated[t]) && updated[t].state == map[])
        decreases pending
      {
        var t :| t in pending;
        if t in dispatchers && dispatchers[t].apiKey == keys[t] {
          updated := updated[t := dispatchers[t]];
        } else {
          var d := new Dispatcher(stores(t), adapter, keys[t], cfg);
          updated := updated[t := d];
        }
        pending := pending - {t};
      }
    }
  }
}

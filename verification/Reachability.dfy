/**
 Which schemas the exported contract keeps (scripts/export_openapi.py:19-59). A `$ref` is the Reference
 Object of section 4.8.23 of OpenAPI 3.1.0.
 */
module Reachability {
  import opened Options
  import opened Jsons

  type Schemas = map<string, Json>

  const PREFIX := "#/components/schemas/"

  predicate StartsWith(s: string, prefix: string) {
    |prefix| <= |s| && s[..|prefix|] == prefix
  }

  /** The schema an object refers to itself, not through its children. */
  function OwnReference(fields: map<string, Json>): set<string> {
    var ref := Get(fields, "$ref");
    if ref.Str? && StartsWith(ref.s, PREFIX) then {ref.s[|PREFIX|..]} else {}
  }

  /** `_schema_references` */
  function References(value: Json): set<string> {
    match value
    case Obj(fields) => OwnReference(fields) + set k, r | k in fields && r in References(fields[k]) :: r
    case Arr(items) => set i, r | 0 <= i < |items| && r in References(items[i]) :: r
    case _ => {}
  }

  // ----- what a reference is, by position --------------------------------------------------------

  /** One step into a JSON value. */
  datatype Step = Field(name: string) | Index(i: nat)

  function Into(value: Json, step: Step): Option<Json> {
    match step
    case Field(name) => if value.Obj? && name in value.fields then Some(value.fields[name]) else None
    case Index(i) => if value.Arr? && i < |value.items| then Some(value.items[i]) else None
  }

  function At(value: Json, path: seq<Step>): Option<Json> {
    if path == [] then Some(value)
    else
      var next := Into(value, path[0]);
      if next.None? then None else At(next.value, path[1..])
  }

  /** At this position stands an object that refers to the schema `name`. */
  predicate RefersAt(value: Json, path: seq<Step>, name: string) {
    var found := At(value, path);
    found.Some? && found.value.Obj? && Get(found.value.fields, "$ref") == Str(PREFIX + name)
  }

  lemma OwnReferenceExactly(fields: map<string, Json>, name: string)
    ensures name in OwnReference(fields) <==> Get(fields, "$ref") == Str(PREFIX + name)
  {
    var ref := Get(fields, "$ref");
    if ref.Str? && StartsWith(ref.s, PREFIX) {
      assert ref.s == PREFIX + ref.s[|PREFIX|..];
    }
    assert StartsWith(PREFIX + name, PREFIX) && (PREFIX + name)[|PREFIX|..] == name;
  }

  lemma {:induction false} ReferenceHasPosition(value: Json, name: string) returns (path: seq<Step>)
    requires name in References(value)
    ensures RefersAt(value, path, name)
    decreases value
  {
    match value
    case Obj(fields) =>
      OwnReferenceExactly(fields, name);
      if name in OwnReference(fields) {
        path := [];
      } else {
        var k :| k in fields && name in References(fields[k]);
        var rest := ReferenceHasPosition(fields[k], name);
        path := [Field(k)] + rest;
      }
    case Arr(items) =>
      var i :| 0 <= i < |items| && name in References(items[i]);
      var rest := ReferenceHasPosition(items[i], name);
      path := [Index(i)] + rest;
  }

  lemma {:induction false} PositionIsReference(value: Json, path: seq<Step>, name: string)
    requires RefersAt(value, path, name)
    ensures name in References(value)
    decreases path
  {
    if path == [] {
      OwnReferenceExactly(value.fields, name);
    } else {
      PositionIsReference(Into(value, path[0]).value, path[1..], name);
    }
  }

  /** `_schema_references` finds exactly the names some object anywhere inside the value refers to. */
  lemma ReferencesExactly(value: Json, name: string)
    ensures name in References(value) <==> exists path :: RefersAt(value, path, name)
  {
    if name in References(value) {
      var path := ReferenceHasPosition(value, name);
    }
    if path :| RefersAt(value, path, name) {
      PositionIsReference(value, path, name);
    }
  }

  /** The references of a named schema; a name the document does not define refers to nothing. */
  function RefsOf(schemas: Schemas, name: string): set<string> {
    if name in schemas then References(schemas[name]) else {}
  }

  /** The reference graph of a document. */
  function Graph(schemas: Schemas): string -> set<string> {
    name => RefsOf(schemas, name)
  }

  /** Every name the document mentions anywhere: the closure cannot leave it. */
  ghost function Mentioned(schemas: Schemas, roots: set<string>): (all: set<string>)
    ensures roots <= all && Closed(Graph(schemas), all)
  {
    roots + set name, r | name in schemas && r in References(schemas[name]) :: r
  }

  // ----- reachability, by paths ------------------------------------------------------------------

  /** A chain of references from one of the roots. */
  ghost predicate IsChain<N(!new)>(refs: N -> set<N>, roots: set<N>, chain: seq<N>) {
    && chain != [] && chain[0] in roots
    && forall i :: 0 < i < |chain| ==> chain[i] in refs(chain[i - 1])
  }

  ghost predicate Reachable<N(!new)>(refs: N -> set<N>, roots: set<N>, name: N) {
    exists chain :: IsChain(refs, roots, chain) && chain[|chain| - 1] == name
  }

  ghost predicate Closed<N(!new)>(refs: N -> set<N>, s: set<N>) {
    forall name :: name in s ==> refs(name) <= s
  }

  ghost predicate AllReachable<N(!new)>(refs: N -> set<N>, roots: set<N>, s: set<N>) {
    forall name :: name in s ==> Reachable(refs, roots, name)
  }

  lemma {:induction false} ClosedHoldsChains<N(!new)>(refs: N -> set<N>, roots: set<N>, s: set<N>, chain: seq<N>)
    requires roots <= s && Closed(refs, s) && IsChain(refs, roots, chain)
    ensures chain[|chain| - 1] in s
    decreases |chain|
  {
    if |chain| > 1 {
      var n := |chain| - 1;
      ClosedHoldsChains(refs, roots, s, chain[..n]);
      assert chain[n] in refs(chain[n - 1]);
    }
  }

  lemma ChainExtends<N(!new)>(refs: N -> set<N>, roots: set<N>, from: N, to: N)
    requires Reachable(refs, roots, from) && to in refs(from)
    ensures Reachable(refs, roots, to)
  {
    var chain :| IsChain(refs, roots, chain) && chain[|chain| - 1] == from;
    var longer := chain + [to];
    assert IsChain(refs, roots, longer) && longer[|longer| - 1] == to;
  }

  lemma RootsAreReachable<N(!new)>(refs: N -> set<N>, roots: set<N>)
    ensures AllReachable(refs, roots, roots)
  {
    forall name | name in roots
      ensures Reachable(refs, roots, name)
    {
      assert IsChain(refs, roots, [name]);
    }
  }

  /** Any closed set with the roots holds everything reachable: the closure is the least one. */
  lemma ReachableIsLeast<N(!new)>(refs: N -> set<N>, roots: set<N>, s: set<N>, name: N)
    requires roots <= s && Closed(refs, s) && Reachable(refs, roots, name)
    ensures name in s
  {
    var chain :| IsChain(refs, roots, chain) && chain[|chain| - 1] == name;
    ClosedHoldsChains(refs, roots, s, chain);
  }

  // ----- the worklist ----------------------------------------------------------------------------

  /** The inner loop: the references not yet reached are marked and queued, in whatever order the set
      yields them. */
  method Enqueue<N(==, !new)>(refs: set<N>, reachable: set<N>, pending: seq<N>) returns (reachable': set<N>,
                              pending': seq<N>)
    ensures reachable' == reachable + refs
    ensures |pending'| == |pending| + |refs - reachable|
    ensures forall name :: name in pending' <==> name in pending || name in refs - reachable
  {
    var news := refs - reachable;
    reachable', pending' := reachable, pending;
    while news != {}
      invariant news <= refs - reachable && reachable' == reachable + (refs - reachable - news)
      invariant |pending'| + |news| == |pending| + |refs - reachable|
      invariant forall name :: name in pending' <==> name in pending || name in refs - reachable - news
      decreases news
    {
      var reference :| reference in news;
      reachable' := reachable' + {reference};
      pending' := pending' + [reference];
      news := news - {reference};
    }
  }

  /** `list(reachable)` */
  method ListOf<N(==, !new)>(s: set<N>) returns (names: seq<N>)
    ensures forall name :: name in names <==> name in s
  {
    names := [];
    var rest := s;
    while rest != {}
      invariant rest <= s && forall name :: name in names <==> name in s - rest
      decreases rest
    {
      var name :| name in rest;
      names := names + [name];
      rest := rest - {name};
    }
  }

  /** A name reached and no longer queued has had all its references marked. */
  ghost predicate Settled<N(!new)>(refs: N -> set<N>, reachable: set<N>, pending: seq<N>) {
    forall name :: name in reachable && name !in pending ==> refs(name) <= reachable
  }

  /** The closure loop. It terminates on every graph, cyclic ones included, and never leaves a closed
      set the roots start in. */
  method CloseWithin<N(==, !new)>(refs: N -> set<N>, roots: set<N>, ghost bound: set<N>) returns (reachable: set<N>)
    requires roots <= bound && Closed(refs, bound)
    ensures roots <= reachable <= bound && Closed(refs, reachable)
  {
    reachable := roots;
    var pending := ListOf(roots);
    while pending != []
      invariant roots <= reachable <= bound
      invariant forall name :: name in pending ==> name in reachable
      invariant Settled(refs, reachable, pending)
      decreases |bound - reachable| + |pending|
    {
      var n := |pending| - 1;
      var name, rest := pending[n], pending[..n];
      assert pending == rest + [name];
      Shrinks(bound, reachable, refs(name));
      reachable, pending := Enqueue(refs(name), reachable, rest);
    }
  }

  ghost function ReachableIn<N(!new)>(refs: N -> set<N>, roots: set<N>, all: set<N>): set<N> {
    set name | name in all && Reachable(refs, roots, name)
  }

  lemma ReachableInIsClosed<N(!new)>(refs: N -> set<N>, roots: set<N>, all: set<N>)
    requires roots <= all && Closed(refs, all)
    ensures roots <= ReachableIn(refs, roots, all) && Closed(refs, ReachableIn(refs, roots, all))
  {
    RootsAreReachable(refs, roots);
    forall name, r | name in ReachableIn(refs, roots, all) && r in refs(name)
      ensures r in ReachableIn(refs, roots, all)
    {
      ChainExtends(refs, roots, name, r);
    }
  }

  /** With finitely many names in play it ends with exactly those some chain of references leads to. */
  method Close<N(==, !new)>(refs: N -> set<N>, roots: set<N>, ghost all: set<N>) returns (reachable: set<N>)
    requires roots <= all && Closed(refs, all)
    ensures forall name :: name in reachable <==> Reachable(refs, roots, name)
    ensures roots <= reachable && Closed(refs, reachable)
  {
    ReachableInIsClosed(refs, roots, all);
    reachable := CloseWithin(refs, roots, ReachableIn(refs, roots, all));
    forall name | Reachable(refs, roots, name)
      ensures name in reachable
    {
      ReachableIsLeast(refs, roots, reachable, name);
    }
  }

  lemma Shrinks<N(!new)>(all: set<N>, reachable: set<N>, refs: set<N>)
    requires refs <= all
    ensures |all - (reachable + refs)| + |refs - reachable| == |all - reachable|
  {
    assert all - reachable == (all - (reachable + refs)) + (refs - reachable);
  }

  // ----- the exported contract -------------------------------------------------------------------

  /** `others` is everything under components that is not a schema. */
  datatype Components = Components(schemas: Schemas, others: map<string, Json>)

  datatype Contract = Contract(paths: map<string, Json>, components: Option<Components>)

  function SchemasOf(c: Contract): Schemas {
    if c.components.Some? then c.components.value.schemas else map[]
  }

  function OthersOf(c: Contract): map<string, Json> {
    if c.components.Some? then c.components.value.others else map[]
  }

  function PublicPaths(paths: map<string, Json>): map<string, Json> {
    map path | path in paths && StartsWith(path, "/api/v1/") :: paths[path]
  }

  /** Every reference made by these parts of a document. */
  function RefsIn(parts: map<string, Json>): set<string> {
    set k, r | k in parts && r in References(parts[k]) :: r
  }

  /** Every schema name the document refers to is one it defines. */
  predicate NothingDangles(c: Contract) {
    RefsIn(c.paths) + RefsIn(SchemasOf(c)) + RefsIn(OthersOf(c)) <= SchemasOf(c).Keys
  }

  /** The public paths, everything under components that is not a schema, and of the schemas, unchanged,
      exactly those a public path reaches. */
  ghost predicate IsPruned(contract: Contract, pruned: Contract) {
    && pruned.paths == PublicPaths(contract.paths) && pruned.components.Some? == contract.components.Some?
    && OthersOf(pruned) == OthersOf(contract)
    && (forall name :: name in SchemasOf(pruned) <==>
          name in SchemasOf(contract) &&
          Reachable(Graph(SchemasOf(contract)), References(Obj(PublicPaths(contract.paths))), name))
    && forall name :: name in SchemasOf(pruned) ==> SchemasOf(pruned)[name] == SchemasOf(contract)[name]
  }

  method ConsoleContract(contract: Contract) returns (pruned: Contract)
    ensures IsPruned(contract, pruned)
  {
    var paths := PublicPaths(contract.paths);
    var schemas := SchemasOf(contract);
    var reachable := Close(Graph(schemas), References(Obj(paths)), Mentioned(schemas, References(Obj(paths))));
    var kept := map name | name in schemas && name in reachable :: schemas[name];
    pruned := Contract(paths,
                       if contract.components.None? then None else Some(contract.components.value.(schemas := kept)));
  }

  /** The paths kept are exactly those of the public API, each with its own definition. */
  lemma PublicPathsIff(paths: map<string, Json>, rest: string)
    ensures "/api/v1/" + rest in PublicPaths(paths) <==> "/api/v1/" + rest in paths
    ensures forall path :: path in PublicPaths(paths) ==>
      |path| >= 8 && path[..8] == "/api/v1/" && path in paths && PublicPaths(paths)[path] == paths[path]
  {
    assert ("/api/v1/" + rest)[..8] == "/api/v1/";
  }

  /** A document whose paths are not themselves a reference. */
  lemma PathReferences(paths: map<string, Json>)
    requires "$ref" !in paths
    ensures References(Obj(paths)) == RefsIn(paths)
  {
    var value := Obj(paths);
    assert value.fields == paths && OwnReference(paths) == {};
    forall r | r in References(value)
      ensures r in RefsIn(paths)
    {
      var k :| k in value.fields && r in References(value.fields[k]);
    }
    forall r | r in RefsIn(paths)
      ensures r in References(value)
    {
      var k :| k in paths && r in References(paths[k]);
      assert r in References(value.fields[k]);
    }
  }

  /** Pruning leaves nothing dangling in the paths and the schemas. Components of other kinds are kept
      whole without being followed, so the whole document is sound exactly when they refer only to
      schemas some public path reaches as well. */
  lemma PrunedIsSoundIff(contract: Contract, pruned: Contract)
    requires IsPruned(contract, pruned) && NothingDangles(contract)
    ensures RefsIn(pruned.paths) + RefsIn(SchemasOf(pruned)) <= SchemasOf(pruned).Keys
    ensures NothingDangles(pruned) <==>
      forall r :: r in RefsIn(OthersOf(contract)) ==>
        Reachable(Graph(SchemasOf(contract)), References(Obj(PublicPaths(contract.paths))), r)
  {
    var schemas, roots := SchemasOf(contract), References(Obj(PublicPaths(contract.paths)));
    assert "$ref" !in pruned.paths;
    PathReferences(pruned.paths);
    RootsAreReachable(Graph(schemas), roots);
    forall r | r in RefsIn(pruned.paths)
      ensures r in SchemasOf(pruned)
    {
      var k :| k in pruned.paths && r in References(pruned.paths[k]);
      assert contract.paths[k] == pruned.paths[k];
      assert r in RefsIn(contract.paths);
    }
    forall r | r in RefsIn(SchemasOf(pruned))
      ensures r in SchemasOf(pruned)
    {
      var name :| name in SchemasOf(pruned) && r in References(SchemasOf(pruned)[name]);
      assert r in RefsIn(schemas);
      ChainExtends(Graph(schemas), roots, name, r);
    }
  }

  /** A document with one schema, referred to by a component of another kind and by no path. */
  function UnfollowedContract(): Contract {
    Contract(map[], Some(Components(map["A" := Null], map["responses" := Obj(map["$ref" := Str(PREFIX + "A")])])))
  }

  /** Such a document is sound, and its pruned form is not. */
  lemma OtherComponentsCanDangle(pruned: Contract)
    requires IsPruned(UnfollowedContract(), pruned)
    ensures NothingDangles(UnfollowedContract()) && !NothingDangles(pruned)
  {
    var contract := UnfollowedContract();
    var others := OthersOf(contract);
    var fields := map["$ref" := Str(PREFIX + "A")];
    var roots := References(Obj(PublicPaths(contract.paths)));
    assert others["responses"] == Obj(fields);
    OwnReferenceExactly(fields, "A");
    assert "A" in References(others["responses"]) && "A" in RefsIn(others);
    forall r | r in RefsIn(others)
      ensures r == "A"
    {
      var k :| k in others && r in References(others[k]);
      assert others[k] == Obj(fields) && References(fields["$ref"]) == {};
      assert r in OwnReference(fields);
      OwnReferenceExactly(fields, r);
      assert (PREFIX + r)[|PREFIX|..] == r && (PREFIX + "A")[|PREFIX|..] == "A";
    }
    assert roots == {};
    PrunedIsSoundIff(contract, pruned);
    if chain :| IsChain(Graph(SchemasOf(contract)), roots, chain) {
      assert false;
    }
  }
}

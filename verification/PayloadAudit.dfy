/**
 The streamed half of the integrity audit: every live object's payload against its type's active schema
 (scripts/data_integrity_audit.py:884-928). What a validator is stays open: `build` makes one from a
 schema and `errors` runs it.
 */
module PayloadAudit {
  import opened Options

  /** The tenant and the object type a definition is for. */
  type TypeKey = (string, string)

  datatype Definition<S> = Definition(key: TypeKey, active: bool, schema: Option<S>)

  datatype Object<P> = Object(id: string, key: TypeKey, payload: P, deleted: bool)

  /** One line of the failure list: which object, and the first thing wrong with it. */
  datatype Failure =
    | PayloadFailure(tenantName: string, objectType: string, id: string, message: string)
    | Summary(bad: nat)

  /** The active definitions by key, the last row of a key counting, and NULL schemas governing nothing. */
  function Schemas<S>(definitions: seq<Definition<S>>): map<TypeKey, S> {
    if definitions == [] then map[]
    else
      var last, before := definitions[|definitions| - 1], Schemas(definitions[..|definitions| - 1]);
      if !last.active then before
      else if last.schema.None? then before - {last.key}
      else before[last.key := last.schema.value]
  }

  /** The last active definition of a key. */
  predicate LastActive<S>(definitions: seq<Definition<S>>, key: TypeKey, k: int) {
    && 0 <= k < |definitions| && definitions[k].active && definitions[k].key == key
    && forall j :: k < j < |definitions| ==> !(definitions[j].active && definitions[j].key == key)
  }

  /** A type is governed exactly when its last active definition has a schema, and by that schema. */
  lemma {:induction false} SchemasIff<S>(definitions: seq<Definition<S>>, key: TypeKey)
    ensures key in Schemas(definitions) <==> exists k :: LastActive(definitions, key, k) && definitions[k].schema.Some?
    ensures forall k :: LastActive(definitions, key, k) && definitions[k].schema.Some? ==>
      Schemas(definitions)[key] == definitions[k].schema.value
  {
    if definitions != [] {
      var n := |definitions| - 1;
      SchemasIff(definitions[..n], key);
      if definitions[n].active && definitions[n].key == key {
        assert LastActive(definitions, key, n);
      } else {
        forall k
          ensures LastActive(definitions, key, k) <==> LastActive(definitions[..n], key, k)
        {
        }
      }
    }
  }

  lemma {:induction false} GovernedRows<S, P>(objects: seq<Object<P>>, schemas: map<TypeKey, S>, o: Object<P>)
    ensures o in Governed(objects, schemas) <==> o in objects && !o.deleted && o.key in schemas
  {
    if objects != [] {
      GovernedRows(objects[1..], schemas, o);
      assert objects == [objects[0]] + objects[1..];
    }
  }

  // ----- the audit without streaming or caching --------------------------------------------------

  function Governed<S, P>(objects: seq<Object<P>>, schemas: map<TypeKey, S>): (governed: seq<Object<P>>)
    ensures forall o :: o in governed ==> o.key in schemas
  {
    if objects == [] then []
    else if objects[0].deleted || objects[0].key !in schemas then Governed(objects[1..], schemas)
    else [objects[0]] + Governed(objects[1..], schemas)
  }

  /** The failures of objects that are governed, each validated by a validator built for it alone. */
  function Violations<S, V, P>(governed: seq<Object<P>>, schemas: map<TypeKey, S>, names: map<string, string>,
                               build: S -> V, errors: (V, P) -> seq<string>): seq<Failure>
    requires forall o :: o in governed ==> o.key in schemas
  {
    if governed == [] then []
    else
      var o, rest := governed[0], Violations(governed[1..], schemas, names, build, errors);
      var found := errors(build(schemas[o.key]), o.payload);
      if found == [] then rest
      else [PayloadFailure(if o.key.0 in names then names[o.key.0] else o.key.0, o.key.1, o.id, found[0])] + rest
  }

  /** What a single object fails with: the first thing wrong with it, under its tenant's name, or the
      tenant's id when it has none. */
  predicate FailsWith<S, V, P>(o: Object<P>, schemas: map<TypeKey, S>, names: map<string, string>, build: S -> V,
                               errors: (V, P) -> seq<string>, f: Failure)
    requires o.key in schemas
  {
    var found := errors(build(schemas[o.key]), o.payload);
    && found != [] && f.PayloadFailure? && f.message == found[0]
    && f.objectType == o.key.1 && f.id == o.id
    && (o.key.0 in names ==> f.tenantName == names[o.key.0]) && (o.key.0 !in names ==> f.tenantName == o.key.0)
  }

  /** The failure list holds what some governed object fails with, and nothing else. */
  lemma {:induction false} ViolationsIff<S, V, P>(governed: seq<Object<P>>, schemas: map<TypeKey, S>,
                                                  names: map<string, string>, build: S -> V,
                                                  errors: (V, P) -> seq<string>, f: Failure)
    requires forall o :: o in governed ==> o.key in schemas
    ensures f in Violations(governed, schemas, names, build, errors) <==>
            exists k :: 0 <= k < |governed| && FailsWith(governed[k], schemas, names, build, errors, f)
  {
    if governed != [] {
      var rest := governed[1..];
      ViolationsIff(rest, schemas, names, build, errors, f);
      if k :| 0 <= k < |rest| && FailsWith(rest[k], schemas, names, build, errors, f) {
        assert FailsWith(governed[k + 1], schemas, names, build, errors, f);
      }
      if k :| 0 < k < |governed| && FailsWith(governed[k], schemas, names, build, errors, f) {
        assert FailsWith(rest[k - 1], schemas, names, build, errors, f);
      }
    }
  }

  lemma {:induction false} ViolationsAppend<S, V, P>(a: seq<Object<P>>, b: seq<Object<P>>, schemas: map<TypeKey, S>,
                                                     names: map<string, string>, build: S -> V,
                                                     errors: (V, P) -> seq<string>)
    requires forall o :: o in a + b ==> o.key in schemas
    ensures (forall o :: o in a ==> o in a + b) && forall o :: o in b ==> o in a + b
    ensures Violations(a + b, schemas, names, build, errors)
            == Violations(a, schemas, names, build, errors) + Violations(b, schemas, names, build, errors)
  {
    if a == [] {
      assert a + b == b;
    } else {
      assert (a + b)[1..] == a[1..] + b;
      ViolationsAppend(a[1..], b, schemas, names, build, errors);
    }
  }

  lemma {:induction false} GovernedAppend<S, P>(a: seq<Object<P>>, b: seq<Object<P>>, schemas: map<TypeKey, S>)
    ensures Governed(a + b, schemas) == Governed(a, schemas) + Governed(b, schemas)
  {
    if a == [] {
      assert a + b == b;
    } else {
      assert (a + b)[1..] == a[1..] + b;
      GovernedAppend(a[1..], b, schemas);
    }
  }

  /** What one more row of the cursor adds to what is governed and to what fails. */
  lemma OneMoreRow<S, V, P>(objects: seq<Object<P>>, k: nat, schemas: map<TypeKey, S>, names: map<string, string>,
                            build: S -> V, errors: (V, P) -> seq<string>)
    requires k < |objects|
    ensures var o, before := objects[k], Governed(objects[..k], schemas);
            var own := if o.deleted || o.key !in schemas then [] else [o];
            && (forall p :: p in own ==> p.key in schemas)
            && Governed(objects[..k + 1], schemas) == before + own
            && Violations(before + own, schemas, names, build, errors)
               == Violations(before, schemas, names, build, errors) + Violations(own, schemas, names, build, errors)
  {
    var o, before := objects[k], Governed(objects[..k], schemas);
    var own := if o.deleted || o.key !in schemas then [] else [o];
    assert objects[..k + 1] == objects[..k] + [o];
    GovernedAppend(objects[..k], [o], schemas);
    assert Governed([o], schemas) == own;
    ViolationsAppend(before, own, schemas, names, build, errors);
  }

  // ----- the streamed loop -----------------------------------------------------------------------

  /** One pass over the cursor with one validator per type: it sees exactly the governed objects and fails
      exactly those a fresh validator would fail, in the same order and with the same message. */
  method StreamedAudit<S, V, P>(definitions: seq<Definition<S>>, objects: seq<Object<P>>, names: map<string, string>,
                                build: S -> V, errors: (V, P) -> seq<string>)
      returns (seen: nat, bad: nat, failures: seq<Failure>)
    ensures var schemas := Schemas(definitions);
            var governed := Governed(objects, schemas);
            var violations := Violations(governed, schemas, names, build, errors);
            && seen == |governed| && bad == |violations|
            && failures == violations + (if bad == 0 then [] else [Summary(bad)])
  {
    var schemas := Schemas(definitions);
    var validators: map<TypeKey, V> := map[];
    seen, bad, failures := 0, 0, [];
    for k := 0 to |objects|
      invariant forall key :: key in validators ==> key in schemas && validators[key] == build(schemas[key])
      invariant seen == |Governed(objects[..k], schemas)|
      invariant failures == Violations(Governed(objects[..k], schemas), schemas, names, build, errors)
      invariant bad == |failures|
    {
      var o := objects[k];
      OneMoreRow(objects, k, schemas, names, build, errors);
      if !o.deleted && o.key in schemas {
        seen := seen + 1;
        if o.key !in validators {
          validators := validators[o.key := build(schemas[o.key])];
        }
        var found := errors(validators[o.key], o.payload);
        if found != [] {
          bad := bad + 1;
          var name := if o.key.0 in names then names[o.key.0] else o.key.0;
          failures := failures + [PayloadFailure(name, o.key.1, o.id, found[0])];
        }
      }
    }
    assert objects[..|objects|] == objects;
    if bad != 0 {
      failures := failures + [Summary(bad)];
    }
  }
}

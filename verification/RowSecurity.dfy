/**
 Row-level security: the policies migration 20260703_0012 installs, and what PostgreSQL makes of them
 (CREATE POLICY, and section 5.8 of the PostgreSQL 16 manual).
 */
module RowSecurity {
  import opened Options

  datatype Command = Selecting | Inserting | Updating | Deleting

  /** `for all` when no command is named. */
  datatype Scope = ForAll | For(command: Command)

  datatype Condition = Always | TenantMatch | PlatformOn | Either(left: Condition, right: Condition)

  datatype Policy = Policy(scope: Scope, using: Option<Condition>, check: Option<Condition>)

  datatype TableSecurity = TableSecurity(enabled: bool, policies: map<string, Policy>)

  type Table = string
  type Tables = map<Table, TableSecurity>

  const STRICT_TABLES: seq<Table> := [
    "employees", "projects", "resources", "resource_bookings", "business_objects", "business_object_links",
    "object_type_definitions", "tenant_skills", "timesheet_headers", "timesheet_entries", "approval_records", "todos"]

  const AUTH_TABLES: seq<Table> := ["users", "api_keys"]

  const MATCH_OR_PLATFORM := Either(TenantMatch, PlatformOn)

  const TENANT_ISOLATION := Policy(ForAll, Some(MATCH_OR_PLATFORM), Some(TenantMatch))
  const AUTH_LOOKUP := Policy(For(Selecting), Some(Always), None)
  const TENANT_INSERT := Policy(For(Inserting), None, Some(MATCH_OR_PLATFORM))
  const TENANT_UPDATE := Policy(For(Updating), Some(MATCH_OR_PLATFORM), Some(MATCH_OR_PLATFORM))

  const STRICT_POLICIES := map["tenant_isolation" := TENANT_ISOLATION]
  const AUTH_POLICIES :=
    map["auth_lookup" := AUTH_LOOKUP, "tenant_insert" := TENANT_INSERT, "tenant_update" := TENANT_UPDATE]

  // ----- the migration ---------------------------------------------------------------------------

  predicate IsStrict(t: Table) { t in STRICT_TABLES }

  predicate IsAuth(t: Table) { t in AUTH_TABLES }

  /** What the upgrade leaves on one table; policies of other names stand. */
  function Secured(t: Table, ts: TableSecurity): TableSecurity {
    if IsStrict(t) then TableSecurity(true, ts.policies + STRICT_POLICIES)
    else if IsAuth(t) then TableSecurity(true, ts.policies + AUTH_POLICIES)
    else ts
  }

  class Catalog {
    var tables: Tables

    constructor (tables: Tables)
      ensures this.tables == tables
    {
      this.tables := tables;
    }

    method SetSecurity(t: Table, enabled: bool)
      requires t in tables
      modifies this
      ensures tables == old(tables)[t := old(tables)[t].(enabled := enabled)]
    {
      tables := tables[t := tables[t].(enabled := enabled)];
    }

    method DropPolicyIfExists(t: Table, name: string)
      requires t in tables
      modifies this
      ensures tables == old(tables)[t := old(tables)[t].(policies := old(tables)[t].policies - {name})]
    {
      tables := tables[t := tables[t].(policies := tables[t].policies - {name})];
    }

    /** Refused by the database when the name is taken. */
    method CreatePolicy(t: Table, name: string, policy: Policy)
      requires t in tables && name !in tables[t].policies
      modifies this
      ensures tables == old(tables)[t := old(tables)[t].(policies := old(tables)[t].policies[name := policy])]
    {
      tables := tables[t := tables[t].(policies := tables[t].policies[name := policy])];
    }

    method SecureStrict(t: Table)
      requires t in tables && IsStrict(t)
      modifies this
      ensures tables == old(tables)[t := Secured(t, old(tables)[t])]
    {
      SetSecurity(t, true);
      DropPolicyIfExists(t, "tenant_isolation");
      CreatePolicy(t, "tenant_isolation", TENANT_ISOLATION);
      assert tables[t].policies == old(tables)[t].policies + STRICT_POLICIES;
    }

    method DropAuthPolicies(t: Table)
      requires t in tables
      modifies this
      ensures tables == old(tables)[t := old(tables)[t].(policies := old(tables)[t].policies - AUTH_POLICIES.Keys)]
    {
      DropPolicyIfExists(t, "auth_lookup");
      DropPolicyIfExists(t, "tenant_insert");
      DropPolicyIfExists(t, "tenant_update");
      assert tables[t].policies == old(tables)[t].policies - AUTH_POLICIES.Keys;
    }

    method CreateAuthPolicies(t: Table)
      requires t in tables && tables[t].policies.Keys !! AUTH_POLICIES.Keys
      modifies this
      ensures tables == old(tables)[t := old(tables)[t].(policies := old(tables)[t].policies + AUTH_POLICIES)]
    {
      CreatePolicy(t, "auth_lookup", AUTH_LOOKUP);
      CreatePolicy(t, "tenant_insert", TENANT_INSERT);
      CreatePolicy(t, "tenant_update", TENANT_UPDATE);
      assert tables[t].policies == old(tables)[t].policies + AUTH_POLICIES;
    }

    method SecureAuth(t: Table)
      requires t in tables && IsAuth(t) && !IsStrict(t)
      modifies this
      ensures tables == old(tables)[t := Secured(t, old(tables)[t])]
    {
      SetSecurity(t, true);
      DropAuthPolicies(t);
      CreateAuthPolicies(t);
      assert tables[t].policies == old(tables)[t].policies + AUTH_POLICIES;
    }

    method SecureStrictTables()
      requires forall t :: IsStrict(t) ==> t in tables
      modifies this
      ensures tables.Keys == old(tables).Keys
      ensures forall t :: t in tables ==>
        tables[t] == if IsStrict(t) then Secured(t, old(tables)[t]) else old(tables)[t]
    {
      TablesAreDistinct();
      for k := 0 to |STRICT_TABLES|
        invariant tables.Keys == old(tables).Keys
        invariant forall t :: t in tables ==>
          tables[t] == if t in STRICT_TABLES[..k] then Secured(t, old(tables)[t]) else old(tables)[t]
      {
        SecureStrict(STRICT_TABLES[k]);
      }
      assert STRICT_TABLES[..|STRICT_TABLES|] == STRICT_TABLES;
    }

    method SecureAuthTables()
      requires forall t :: IsAuth(t) ==> t in tables
      modifies this
      ensures tables.Keys == old(tables).Keys
      ensures forall t :: t in tables ==> tables[t] == if IsAuth(t) then Secured(t, old(tables)[t]) else old(tables)[t]
    {
      TablesAreDistinct();
      for k := 0 to |AUTH_TABLES|
        invariant tables.Keys == old(tables).Keys
        invariant forall t :: t in tables ==>
          tables[t] == if t in AUTH_TABLES[..k] then Secured(t, old(tables)[t]) else old(tables)[t]
      {
        SecureAuth(AUTH_TABLES[k]);
      }
      assert AUTH_TABLES[..|AUTH_TABLES|] == AUTH_TABLES;
    }

    method Upgrade()
      requires forall t :: IsStrict(t) || IsAuth(t) ==> t in tables
      modifies this
      ensures tables.Keys == old(tables).Keys && forall t :: t in tables ==> tables[t] == Secured(t, old(tables)[t])
    {
      TablesAreDistinct();
      SecureStrictTables();
      SecureAuthTables();
    }
  }

  lemma TablesAreDistinct()
    ensures forall i, j :: 0 <= i < j < |STRICT_TABLES| ==> STRICT_TABLES[i] != STRICT_TABLES[j]
    ensures forall i, j :: 0 <= i < j < |AUTH_TABLES| ==> AUTH_TABLES[i] != AUTH_TABLES[j]
    ensures forall t :: !(IsStrict(t) && IsAuth(t))
  {
  }
}

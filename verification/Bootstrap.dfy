/**
 Which tenants to serve, and a credential for each (flow_runner/bootstrap.py).
 */
module Bootstrap {
  import opened Options
  import opened Jsons

  type TenantId = string
  type Key = string
  type Keys = map<TenantId, Key>

  datatype Credential = Credential(tenant: TenantId, key: Key)

  /** What asking for a credential comes to. The control plane may have issued one whose answer was lost;
      `crash` marks an exception other than `ApiError`, which nobody catches. */
  datatype Mint = Issued(key: Key) | Refused(crash: bool) | IssuedUnheard(crash: bool)

  /** One listed workspace, with the answer a credential request for it would get in this pass. */
  datatype Row = Row(tenant: TenantId, mint: Mint)

  /** `Unreachable` is an `ApiError` or `OSError`; `Garbled` is any other exception. A listing is cut short
      when after `rows` comes one without a usable tenant id, on which the loop raises. */
  datatype Listing = Listed(rows: seq<Row>, cutShort: bool) | Unreachable | Garbled

  /** What reading the state file gives: nothing readable, or some JSON value. */
  datatype StateFile = Unreadable | Holds(json: Json)

  /** What writing it does; a failed write leaves whatever it leaves. */
  datatype Writing = Written | NotWritten(leaves: StateFile)

  /** One credential issued by the control plane, and whether its key ended up with the runner. */
  datatype Issue = Issue(tenant: TenantId, kept: bool)

  /** `wanted` is None when the call raised. */
  datatype Resolution = Resolution(wanted: Option<Keys>, file: StateFile, issues: seq<Issue>)

  // ----- the state file --------------------------------------------------------------------------

  /** None when the file holds something truthy that is not an object, on which `.items()` raises. */
  function Remembered(file: StateFile): Option<Keys> {
    if file.Unreadable? || !file.json.Truthy() then Some(map[])
    else if !file.json.Obj? then None
    else
      var fields := file.json.fields;
      Some(map t | t in fields && fields[t].Str? && fields[t].s != "" :: fields[t].s)
  }

  function Saved(acquired: Keys): StateFile {
    Holds(Obj(map t | t in acquired :: Str(acquired[t])))
  }

  /** What is remembered after a successful write: everything but empty keys. */
  lemma SavedIsRemembered(acquired: Keys)
    ensures Remembered(Saved(acquired)).Some?
    ensures Remembered(Saved(acquired)).value == map t | t in acquired && acquired[t] != "" :: acquired[t]
  {
    var fields := map t | t in acquired :: Str(acquired[t]);
    if acquired == map[] {
      assert fields == map[];
    } else {
      var t :| t in acquired;
      assert t in fields;
    }
  }

  // ----- resolve_tenants -------------------------------------------------------------------------

  /** The operator's word; where the file names a tenant twice, its last line. */
  function ByTenant(configured: seq<Credential>): Keys {
    if configured == [] then map[]
    else
      var last := configured[|configured| - 1];
      ByTenant(configured[..|configured| - 1])[last.tenant := last.key]
  }

  datatype Admission = Admission(byTenant: Keys, acquired: Keys, issues: seq<Issue>, raised: bool)

  function AdmitOne(a: Admission, remembered: Keys, row: Row): Admission {
    var t := row.tenant;
    if t in a.byTenant then a
    else if t in remembered then
      a.(byTenant := a.byTenant[t := remembered[t]], acquired := a.acquired[t := remembered[t]])
    else
      match row.mint
      case Issued(key) =>
        Admission(a.byTenant[t := key], a.acquired[t := key], a.issues + [Issue(t, true)], false)
      case Refused(crash) => a.(raised := crash)
      case IssuedUnheard(crash) => a.(issues := a.issues + [Issue(t, false)], raised := crash)
  }

  function Admit(a: Admission, remembered: Keys, rows: seq<Row>): Admission
    decreases |rows|
  {
    if rows == [] || a.raised then a else Admit(AdmitOne(a, remembered, rows[0]), remembered, rows[1..])
  }

  /** Keys obtained by a call that then raised go nowhere. */
  function Wasted(issues: seq<Issue>): seq<Issue> {
    seq(|issues|, i requires 0 <= i < |issues| => issues[i].(kept := false))
  }

  function Resolve(hasFile: bool, configured: seq<Credential>, listing: Listing, file: StateFile, writing: Writing)
    : Resolution
  {
    match listing
    case Unreachable => Resolution(Some(ByTenant(configured)), file, [])
    case Garbled => Resolution(None, file, [])
    case Listed(rows, cutShort) =>
      var remembered := if hasFile then Remembered(file) else Some(map[]);
      if remembered.None? then Resolution(None, file, [])
      else
        var a := Admit(Admission(ByTenant(configured), map[], [], false), remembered.value, rows);
        if a.raised || cutShort then Resolution(None, file, Wasted(a.issues))
        else
          var file' := if !hasFile then file else if writing.Written? then Saved(a.acquired) else writing.leaves;
          Resolution(Some(a.byTenant), file', a.issues)
  }

  class Bootstrapper {
    const hasFile: bool
    var file: StateFile

    constructor (hasFile: bool, file: StateFile)
      ensures this.hasFile == hasFile && this.file == file
    {
      this.hasFile := hasFile;
      this.file := file;
    }

    method Remember(acquired: Keys, writing: Writing)
      modifies this
      ensures file == if !hasFile then old(file) else if writing.Written? then Saved(acquired) else writing.leaves
    {
      if hasFile {
        file := if writing.Written? then Saved(acquired) else writing.leaves;
      }
    }

    method ResolveTenants(configured: seq<Credential>, listing: Listing, writing: Writing)
      returns (wanted: Option<Keys>)
      modifies this
      ensures var r := Resolve(hasFile, configured, listing, old(file), writing); wanted == r.wanted && file == r.file
    {
      var byTenant := ByTenant(configured);
      if listing.Unreachable? {
        return Some(byTenant);
      } else if listing.Garbled? {
        return None;
      }
      var remembered := if hasFile then Remembered(file) else Some(map[]);
      if remembered.None? {
        return None;
      }
      var rows, acquired: Keys := listing.rows, map[];
      ghost var issues: seq<Issue> := [];
      ghost var whole := Admit(Admission(byTenant, map[], [], false), remembered.value, rows);
      for k := 0 to |rows|
        invariant Admit(Admission(byTenant, acquired, issues, false), remembered.value, rows[k..]) == whole
      {
        var t, mint := rows[k].tenant, rows[k].mint;
        assert rows[k..][0] == rows[k] && rows[k..][1..] == rows[k + 1..];
        ghost var next := AdmitOne(Admission(byTenant, acquired, issues, false), remembered.value, rows[k]);
        if t in byTenant {
        } else if t in remembered.value {
          acquired := acquired[t := remembered.value[t]];
          byTenant := byTenant[t := remembered.value[t]];
        } else if mint.Issued? {
          acquired := acquired[t := mint.key];
          byTenant := byTenant[t := mint.key];
        } else if mint.crash {
          return None;
        }
        issues := next.issues;
      }
      if listing.cutShort {
        return None;
      }
      Remember(acquired, writing);
      wanted := Some(byTenant);
    }
  }
}

/**
 * The TenantHost table: maps a network host name to the tenant it serves.
 * `host` is unique, so a host names at most one tenant. The association
 * passes `allowNull: false` as an option of `belongsTo` rather than of the
 * foreign key, where the ORM does not read it, so `tenantId` may be null.
 */
module TenantHostModel {
  import opened Wrappers
  import opened Tables

  datatype TenantHost = TenantHost(host: string, isPrimary: bool, verified: bool, tenantId: Option<int>)

  datatype TenantHostDraft = TenantHostDraft(
    host: Option<string>,
    isPrimary: Option<bool>,
    verified: Option<bool>,
    tenantId: Option<int>)

  /** `host` is NOT NULL; `isPrimary` and `verified` default to false. */
  function BuildTenantHost(d: TenantHostDraft): (r: Result<TenantHost, DbError>)
    ensures r.Ok? <==> d.host.Some?
    ensures r.Ok? ==> Some(r.value.host) == d.host && r.value.tenantId == d.tenantId
    ensures r.Ok? ==> (r.value.isPrimary <==> d.isPrimary == Some(true))
    ensures r.Ok? ==> (r.value.verified <==> d.verified == Some(true))
  {
    if d.host.None? then Err(NotNullViolation("host"))
    else Ok(TenantHost(d.host.value, d.isPrimary.GetOr(false), d.verified.GetOr(false), d.tenantId))
  }

  /** The unique constraint on `host`. */
  ghost predicate HostUnique(t: seq<Row<TenantHost>>) {
    forall x, y :: x in t && y in t && x.id != y.id ==> x.val.host != y.val.host
  }

  /** Under the unique constraint, two rows with the same host are the same row. */
  lemma HostNamesOneRow(t: seq<Row<TenantHost>>, i: nat, j: nat)
    requires HostUnique(t) && Ascending(t)
    requires i < |t| && j < |t| && t[i].val.host == t[j].val.host
    ensures i == j
  {
    assert t[i] in t && t[j] in t;
    assert t[i].id == t[j].id;
  }
}

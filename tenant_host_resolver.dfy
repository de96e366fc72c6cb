/**
 * Tenant resolution by request host (server/middleware/tenantHostResolver.js).
 * The host name is taken from `x-tenant-host` or `Host`, looked up in a
 * process-wide cache with a five-minute time to live and, on a miss, in the
 * TenantHost table. When the host is unknown the request falls back to the
 * tenant with the configured default slug, then to the lowest-id tenant.
 * The clock is an explicit `now` in milliseconds. This is the resolver as
 * intended; as the code stands, `TenantHost` is not among the exported
 * models and every lookup throws, which `HandleStepAsWritten` models.
 */
module TenantHostResolver {
  import opened Wrappers
  import opened JsStrings
  import opened Tables
  import opened TenantModel
  import opened TenantHostModel

  const CacheTtlMs: int := 5 * 60 * 1000

  /** A header as Node delivers it: absent, a string, or a non-string value (a repeated header). */
  datatype HeaderValue = Absent | Text(s: string) | NonString

  datatype RequestHeaders = RequestHeaders(tenantHost: HeaderValue, host: Option<string>)

  datatype TenantContext = TenantContext(tenantId: int, tenantSlug: string, tenantName: string)

  datatype CacheEntry = CacheEntry(data: TenantContext, expires: int)

  /** The database as the resolver sees it; `up` is false when every query throws. */
  datatype Directory = Directory(hosts: seq<Row<TenantHost>>, tenants: seq<Row<Tenant>>, up: bool)

  /** What the store guarantees: both tables in ascending id order, and unique host names. */
  ghost predicate DirectoryValid(dir: Directory) {
    Ascending(dir.hosts) && HostUnique(dir.hosts) && Ascending(dir.tenants)
  }

  /** The header the host name is read from: a non-empty string `x-tenant-host`, else `Host`, else "". */
  function HostSource(h: RequestHeaders): string {
    if h.tenantHost.Text? && h.tenantHost.s != [] then h.tenantHost.s
    else if h.host.Some? then h.host.value
    else ""
  }

  /** `getHost`: the text of the chosen header before its first ':', lower-cased. */
  function GetHost(h: RequestHeaders): string {
    Lower(Split(HostSource(h), ':')[0])
  }

  /** The host is the lower-cased text of the chosen header up to (not including) its first ':'. */
  lemma GetHostIsLowerCasedHostPart(h: RequestHeaders)
    ensures var src, r := HostSource(h), GetHost(h);
      && ':' !in r && IsLowerCase(r) && |r| <= |src|
      && r == Lower(src[..|r|]) && ':' !in src[..|r|]
      && (|r| == |src| || src[|r|] == ':')
  {
    var src := HostSource(h);
    var p := Split(src, ':')[0];
    FirstPieceIsPrefix(src, ':');
    LowerIsLowerCase(p);
    if p != src {
      assert src[..|p|] == (p + [':'])[..|p|] == p;
    }
  }

  /** A non-empty string `x-tenant-host` decides the host whatever `Host` says. */
  lemma TenantHostHeaderWins(h: RequestHeaders, otherHost: Option<string>)
    requires h.tenantHost.Text? && h.tenantHost.s != []
    ensures GetHost(h) == GetHost(h.(host := otherHost))
    ensures GetHost(h) == Lower(Split(h.tenantHost.s, ':')[0])
  {
  }

  /** Host row `i` is named `host` and points at tenant row `j`. */
  predicate HostPointsAt(dir: Directory, host: string, i: int, j: int) {
    && 0 <= i < |dir.hosts| && 0 <= j < |dir.tenants|
    && dir.hosts[i].val.host == host && dir.hosts[i].val.tenantId == Some(dir.tenants[j].id)
  }

  /**
   * `TenantHost.findOne({ where: { host }, include: Tenant })`: the tenant
   * the host row points at, or None when there is no such row or its tenant
   * does not exist.
   */
  function LookupHost(dir: Directory, host: string): (r: Option<TenantContext>)
    requires DirectoryValid(dir)
    ensures r.Some? <==> exists i, j :: HostPointsAt(dir, host, i, j)
    ensures forall i, j :: HostPointsAt(dir, host, i, j) ==>
              r == Some(TenantContext(dir.tenants[j].id, dir.tenants[j].val.slug, dir.tenants[j].val.name))
  {
    match FindFirst(dir.hosts, (x: TenantHost) => x.host == host)
    case None => None
    case Some(i) =>
      var tid := dir.hosts[i].val.tenantId;
      assert forall k :: 0 <= k < |dir.hosts| && dir.hosts[k].val.host == host ==> k == i by {
        forall k | 0 <= k < |dir.hosts| && dir.hosts[k].val.host == host ensures k == i {
          HostNamesOneRow(dir.hosts, k, i);
        }
      }
      if tid.None? then None
      else
        match IndexOfId(dir.tenants, tid.value)
        case None => None
        case Some(j) =>
          assert forall k :: 0 <= k < |dir.tenants| && dir.tenants[k].id == tid.value ==> k == j by {
            forall k | 0 <= k < |dir.tenants| && dir.tenants[k].id == tid.value ensures k == j {
              IndexOfIdUnique(dir.tenants, tid.value, k);
            }
          }
          assert HostPointsAt(dir, host, i, j);
          Some(TenantContext(tid.value, dir.tenants[j].val.slug, dir.tenants[j].val.name))
  }

  /** A cache entry answers only while its expiry lies strictly in the future. */
  function CacheHit(cache: map<string, CacheEntry>, host: string, now: int): (r: Option<TenantContext>)
    ensures r.Some? <==> host in cache && cache[host].expires > now
    ensures r.Some? ==> r.value == cache[host].data
  {
    if host in cache && cache[host].expires > now then Some(cache[host].data) else None
  }

  /** What `resolveHost` answers: a context, null, or a thrown store error. */
  datatype Resolution = Resolved(ctx: TenantContext) | Unresolved | StoreError

  /** `resolveHost(host)` as a function of the old cache: its answer and the new cache. */
  function ResolveStep(cache: map<string, CacheEntry>, host: string, now: int, dir: Directory)
    : (Resolution, map<string, CacheEntry>)
    requires DirectoryValid(dir)
  {
    match CacheHit(cache, host, now)
    case Some(d) => (Resolved(d), cache)
    case None =>
      if !dir.up then (StoreError, cache)
      else
        match LookupHost(dir, host)
        case None => (Unresolved, cache - {host})
        case Some(d) => (Resolved(d), cache[host := CacheEntry(d, now + CacheTtlMs)])
  }

  /** A live entry is served as it is, the store is not consulted and the cache is unchanged. */
  lemma LiveEntryServed(cache: map<string, CacheEntry>, host: string, now: int, dir: Directory)
    requires DirectoryValid(dir)
    requires host in cache && cache[host].expires > now
    ensures ResolveStep(cache, host, now, dir) == (Resolved(cache[host].data), cache)
  {
  }

  /** An entry whose expiry equals `now` is a miss: the answer comes from the store. */
  lemma EntryAtExpiryIsMiss(cache: map<string, CacheEntry>, host: string, dir: Directory)
    requires DirectoryValid(dir)
    requires host in cache && dir.up
    ensures var (res, _) := ResolveStep(cache, host, cache[host].expires, dir);
      res == (match LookupHost(dir, host) case Some(d) => Resolved(d) case None => Unresolved)
  {
  }

  /** A successful lookup caches the same data it returns, expiring 300000 ms after `now`. */
  lemma LookupCachesWhatItReturns(cache: map<string, CacheEntry>, host: string, now: int, dir: Directory)
    requires DirectoryValid(dir)
    requires CacheHit(cache, host, now).None? && dir.up && LookupHost(dir, host).Some?
    ensures var (res, c) := ResolveStep(cache, host, now, dir);
      res.Resolved? && host in c && c[host] == CacheEntry(res.ctx, now + 300000)
      && forall k :: k in cache && k != host ==> k in c && c[k] == cache[k]
  {
  }

  /** A failed lookup drops that host's entry only and answers null. */
  lemma FailedLookupEvicts(cache: map<string, CacheEntry>, host: string, now: int, dir: Directory)
    requires DirectoryValid(dir)
    requires CacheHit(cache, host, now).None? && dir.up && LookupHost(dir, host).None?
    ensures var (res, c) := ResolveStep(cache, host, now, dir);
      res == Unresolved && host !in c
      && forall k :: k != host ==> (k in c <==> k in cache) && (k in c ==> c[k] == cache[k])
  {
  }

  /**
   * Cached answers can be stale: once a host is resolved at `t`, it is
   * answered with the same tenant until `t + 300000`, whatever the store says
   * by then.
   */
  lemma StaleWithinTtl(cache: map<string, CacheEntry>, host: string, t: int, dir: Directory,
                       later: int, dir2: Directory)
    requires DirectoryValid(dir) && DirectoryValid(dir2)
    requires ResolveStep(cache, host, t, dir).0.Resolved?
    requires CacheHit(cache, host, t).None?
    requires t <= later < t + CacheTtlMs
    ensures var (res, c) := ResolveStep(cache, host, t, dir);
      ResolveStep(c, host, later, dir2) == (res, c)
  {
  }

  /** `process.env.DEFAULT_TENANT_SLUG || 'default'`. */
  function FallbackSlug(env: Option<string>): (s: string)
    ensures s != []
  {
    if env.Some? && env.value != [] then env.value else "default"
  }

  /**
   * The fallback tenant: the one with the fallback slug, else the lowest-id
   * tenant (`order: [['id', 'ASC']]`), else none.
   */
  function FallbackTenant(tenants: seq<Row<Tenant>>, env: Option<string>): (r: Option<nat>)
    requires Ascending(tenants)
    ensures r.None? <==> tenants == []
    ensures r.Some? ==> r.value < |tenants|
    ensures r.Some? && tenants[r.value].val.slug != FallbackSlug(env) ==>
              && (forall i :: 0 <= i < |tenants| ==> tenants[i].val.slug != FallbackSlug(env))
              && (forall i :: 0 <= i < |tenants| ==> tenants[r.value].id <= tenants[i].id)
  {
    var slug := FallbackSlug(env);
    match FindFirst(tenants, (x: Tenant) => x.slug == slug)
    case Some(i) => Some(i)
    case None => if tenants == [] then None else Some(0)
  }

  /** The middleware's answer: continue with a tenant context, or reply with a status and message. */
  datatype Outcome = Next(ctx: TenantContext) | Reply(status: int, message: string)

  /** The whole middleware as a function of the old cache: its outcome and the new cache. */
  function HandleStep(cache: map<string, CacheEntry>, req: RequestHeaders, now: int, dir: Directory,
                      env: Option<string>): (Outcome, map<string, CacheEntry>)
    requires DirectoryValid(dir)
  {
    var host := GetHost(req);
    if host == [] then (Reply(400, "Missing host header"), cache)
    else
      var (res, c) := ResolveStep(cache, host, now, dir);
      match res
      case Resolved(ctx) => (Next(ctx), c)
      case StoreError => (Reply(500, "Failed to resolve tenant host"), c)
      case Unresolved =>
        match FallbackTenant(dir.tenants, env)
        case Some(i) =>
          var t := dir.tenants[i];
          (Next(TenantContext(t.id, t.val.slug, t.val.name)), c)
        case None => (Reply(404, "Unknown tenant host"), c)
  }

  /** An empty host is refused with 400 before the cache or the store is touched. */
  lemma MissingHostRefused(cache: map<string, CacheEntry>, req: RequestHeaders, now: int, dir: Directory,
                           env: Option<string>)
    requires DirectoryValid(dir)
    requires GetHost(req) == []
    ensures HandleStep(cache, req, now, dir, env) == (Reply(400, "Missing host header"), cache)
  {
  }

  /** The fallback path never writes the cache: it leaves what `resolveHost` left. */
  lemma FallbackLeavesCache(cache: map<string, CacheEntry>, req: RequestHeaders, now: int, dir: Directory,
                            env: Option<string>)
    requires DirectoryValid(dir)
    requires GetHost(req) != []
    ensures HandleStep(cache, req, now, dir, env).1 == ResolveStep(cache, GetHost(req), now, dir).1
  {
  }

  /**
   * 404 happens exactly when the host is not resolved and the Tenant table
   * is empty; 500 exactly when the store fails on a cache miss.
   */
  lemma NotFoundOnlyWithoutTenants(cache: map<string, CacheEntry>, req: RequestHeaders, now: int, dir: Directory,
                                   env: Option<string>)
    requires DirectoryValid(dir)
    requires GetHost(req) != []
    ensures var o := HandleStep(cache, req, now, dir, env).0;
      && (o == Reply(404, "Unknown tenant host") <==>
            ResolveStep(cache, GetHost(req), now, dir).0 == Unresolved && dir.tenants == [])
      && (o == Reply(500, "Failed to resolve tenant host") <==>
            CacheHit(cache, GetHost(req), now).None? && !dir.up)
  {
  }

  /**
   * The middleware as written: `TenantHost` is not among the models that
   * server/models/index.js exports, so `TenantHost.findOne` throws on every
   * cache miss, exactly as a failing store does, and nothing is ever cached.
   */
  function HandleStepAsWritten(cache: map<string, CacheEntry>, req: RequestHeaders, now: int, dir: Directory,
                               env: Option<string>): (r: (Outcome, map<string, CacheEntry>))
    requires DirectoryValid(dir)
    ensures r.1 == cache
    ensures GetHost(req) == [] ==> r.0 == Reply(400, "Missing host header")
    ensures GetHost(req) != [] && CacheHit(cache, GetHost(req), now).None? ==>
              r.0 == Reply(500, "Failed to resolve tenant host")
  {
    HandleStep(cache, req, now, dir.(up := false), env)
  }

  /**
   * From the empty cache the process starts with, a host the directory maps
   * to a tenant is resolved by the intended middleware but answered 500 as
   * written, and the cache stays empty, so every later request fails too.
   */
  lemma AsWrittenRefusesKnownHost(req: RequestHeaders, now: int, dir: Directory, env: Option<string>)
    requires DirectoryValid(dir) && dir.up
    requires GetHost(req) != [] && LookupHost(dir, GetHost(req)).Some?
    ensures HandleStep(map[], req, now, dir, env).0 == Next(LookupHost(dir, GetHost(req)).value)
    ensures HandleStepAsWritten(map[], req, now, dir, env) == (Reply(500, "Failed to resolve tenant host"), map[])
  {
  }

  /** The process-wide `cache` Map of the middleware module. */
  class Resolver {
    var cache: map<string, CacheEntry>

    constructor ()
      ensures cache == map[]
    {
      cache := map[];
    }

    /** `resolveHost(host)`: answers from a live entry, else from the store, updating the entry. */
    method ResolveHost(host: string, now: int, dir: Directory) returns (r: Resolution)
      requires DirectoryValid(dir)
      modifies this
      ensures (r, cache) == ResolveStep(old(cache), host, now, dir)
    {
      var cached := if host in cache then Some(cache[host]) else None;
      if cached.Some? && cached.value.expires > now {
        return Resolved(cached.value.data);
      }
      if !dir.up {
        return StoreError;
      }
      var record := LookupHost(dir, host);
      if record.None? {
        cache := cache - {host};
        return Unresolved;
      }
      var data := record.value;
      cache := cache[host := CacheEntry(data, now + CacheTtlMs)];
      return Resolved(data);
    }

    /** The middleware returned by `tenantHostResolver()`, applied to one request. */
    method Handle(req: RequestHeaders, now: int, dir: Directory, env: Option<string>) returns (o: Outcome)
      requires DirectoryValid(dir)
      modifies this
      ensures (o, cache) == HandleStep(old(cache), req, now, dir, env)
    {
      var host := GetHost(req);
      if host == [] {
        return Reply(400, "Missing host header");
      }
      var context := ResolveHost(host, now, dir);
      if context.StoreError? {
        return Reply(500, "Failed to resolve tenant host");
      }
      if context.Resolved? {
        return Next(context.ctx);
      }
      var fallback := FallbackTenant(dir.tenants, env);
      if fallback.Some? {
        var t := dir.tenants[fallback.value];
        return Next(TenantContext(t.id, t.val.slug, t.val.name));
      }
      return Reply(404, "Unknown tenant host");
    }
  }
}

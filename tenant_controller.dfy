/**
 * Tenant onboarding and settings (server/controllers/tenantController.js):
 * the slug and client-URL rules, `preview`, the transactional `confirm`
 * that creates a tenant and its first admin, `updateSettings` and
 * `updateFieldConfig`. The random slug suffix, the password hash and the
 * email validator are parameters.
 */
module TenantController {
  import opened Wrappers
  import opened JsStrings
  import opened JsValues
  import opened Tables
  import opened Http
  import opened TenantModel
  import opened UserModel
  import opened Database

  // ---------------------------------------------------------------- slugs

  /** The characters `[a-z0-9]` that survive slug cleaning. */
  predicate IsSlugChar(c: char) {
    'a' <= c <= 'z' || '0' <= c <= '9'
  }

  /** Every character is a slug character or '-'. */
  predicate SlugAlphabet(s: string) {
    forall i :: 0 <= i < |s| ==> IsSlugChar(s[i]) || s[i] == '-'
  }

  /** No two '-' are adjacent. */
  predicate NoDoubleDash(s: string) {
    forall i :: 0 <= i < |s| - 1 && s[i] == '-' ==> s[i + 1] != '-'
  }

  /** A cleaned slug base: slug characters and single dashes, with no dash at either end. */
  predicate CleanBase(s: string) {
    SlugAlphabet(s) && NoDoubleDash(s) && (s != [] ==> s[0] != '-' && s[|s| - 1] != '-')
  }

  /** The slug characters of `s`, in order. */
  function SlugChars(s: string): (r: string)
    ensures |r| <= |s|
  {
    if s == [] then [] else (if IsSlugChar(s[0]) then [s[0]] else []) + SlugChars(s[1..])
  }

  /** Drops the leading run of characters outside `[a-z0-9]`. */
  function SkipRun(s: string): (r: string)
    ensures |r| <= |s| && r == s[|s| - |r|..]
    ensures r == [] || IsSlugChar(r[0])
    ensures forall i :: 0 <= i < |s| - |r| ==> !IsSlugChar(s[i])
  {
    if s == [] || IsSlugChar(s[0]) then s else SkipRun(s[1..])
  }

  /** `.replace(/[^a-z0-9]+/g, '-')`: each maximal run outside `[a-z0-9]` becomes one '-'. */
  function CollapseRuns(s: string): (r: string)
    ensures SlugAlphabet(r) && NoDoubleDash(r)
    ensures r == [] <==> s == []
    ensures r != [] ==> (IsSlugChar(r[0]) <==> IsSlugChar(s[0]))
    decreases |s|
  {
    if s == [] then []
    else if IsSlugChar(s[0]) then
      var rest := CollapseRuns(s[1..]);
      assert forall i :: 1 <= i < |rest| + 1 ==> ([s[0]] + rest)[i] == rest[i - 1];
      [s[0]] + rest
    else
      var rest := CollapseRuns(SkipRun(s[1..]));
      assert forall i :: 1 <= i < |rest| + 1 ==> ("-" + rest)[i] == rest[i - 1];
      "-" + rest
  }

  /** A string of `[a-z0-9]` characters only is left as it is. */
  lemma {:induction false} CollapseSlugRun(u: string)
    requires forall i :: 0 <= i < |u| ==> IsSlugChar(u[i])
    ensures CollapseRuns(u) == u
    decreases |u|
  {
    if u != [] {
      CollapseSlugRun(u[1..]);
      assert u == [u[0]] + u[1..];
    }
  }

  /** Skipping a run of non-slug characters stops exactly where the slug characters start. */
  lemma {:induction false} SkipRunOverSeparator(sep: string, v: string)
    requires forall i :: 0 <= i < |sep| ==> !IsSlugChar(sep[i])
    requires v == [] || IsSlugChar(v[0])
    ensures SkipRun(sep + v) == v
    decreases |sep|
  {
    if sep != [] {
      assert (sep + v)[1..] == sep[1..] + v;
      SkipRunOverSeparator(sep[1..], v);
    } else {
      assert sep + v == v;
    }
  }

  /** Skipping a run that ends inside `u` is not affected by what follows `u`. */
  lemma {:induction false} SkipRunAppend(u: string, v: string)
    requires u != [] && IsSlugChar(u[|u| - 1])
    ensures SkipRun(u + v) == SkipRun(u) + v
    decreases |u|
  {
    if !IsSlugChar(u[0]) {
      assert (u + v)[1..] == u[1..] + v;
      SkipRunAppend(u[1..], v);
    }
  }

  /** Collapsing a string that ends in a slug character is independent of what follows it. */
  lemma {:induction false} CollapseAppend(u: string, v: string)
    requires u == [] || IsSlugChar(u[|u| - 1])
    ensures CollapseRuns(u + v) == CollapseRuns(u) + CollapseRuns(v)
    decreases |u|
  {
    if u == [] {
      assert u + v == v;
    } else if IsSlugChar(u[0]) {
      assert (u + v)[1..] == u[1..] + v;
      CollapseAppend(u[1..], v);
    } else {
      assert (u + v)[1..] == u[1..] + v;
      SkipRunAppend(u[1..], v);
      CollapseAppend(SkipRun(u[1..]), v);
    }
  }

  /**
   * The run-collapsing regex at work: a maximal run of characters outside
   * `[a-z0-9]` between two slug runs becomes exactly one '-'.
   */
  lemma CollapseSeparator(u: string, sep: string, v: string)
    requires u != [] && IsSlugChar(u[|u| - 1])
    requires sep != [] && forall i :: 0 <= i < |sep| ==> !IsSlugChar(sep[i])
    requires v != [] && IsSlugChar(v[0])
    ensures CollapseRuns(u + sep + v) == CollapseRuns(u) + "-" + CollapseRuns(v)
  {
    assert u + sep + v == u + (sep + v);
    CollapseAppend(u, sep + v);
    CollapseLeadingSeparator(sep, v);
  }

  /** A leading run outside `[a-z0-9]` becomes one '-'. */
  lemma CollapseLeadingSeparator(sep: string, v: string)
    requires sep != [] && forall i :: 0 <= i < |sep| ==> !IsSlugChar(sep[i])
    requires v == [] || IsSlugChar(v[0])
    ensures CollapseRuns(sep + v) == "-" + CollapseRuns(v)
  {
    var w := sep + v;
    assert w[0] == sep[0] && w[1..] == sep[1..] + v;
    SkipRunOverSeparator(sep[1..], v);
    CollapseNonSlugHead(w);
  }

  /** A string that starts outside `[a-z0-9]` collapses to '-' and the collapse of what follows its run. */
  lemma CollapseNonSlugHead(w: string)
    requires w != [] && !IsSlugChar(w[0])
    ensures CollapseRuns(w) == "-" + CollapseRuns(SkipRun(w[1..]))
  {
  }

  /** Drops the leading '-' characters. */
  function DropLeadingDashes(s: string): (r: string)
    ensures |r| <= |s| && r == s[|s| - |r|..]
    ensures r == [] || r[0] != '-'
    ensures forall i :: 0 <= i < |s| - |r| ==> s[i] == '-'
  {
    if s != [] && s[0] == '-' then DropLeadingDashes(s[1..]) else s
  }

  /** Drops the trailing '-' characters. */
  function DropTrailingDashes(s: string): (r: string)
    ensures |r| <= |s| && r == s[..|r|]
    ensures r == [] || r[|r| - 1] != '-'
    ensures forall i :: |r| <= i < |s| ==> s[i] == '-'
  {
    if s != [] && s[|s| - 1] == '-' then DropTrailingDashes(s[..|s| - 1]) else s
  }

  /** The base of a slug: lower-cased, runs collapsed, then `.replace(/^-+|-+$/g, '')`. */
  function SlugBase(name: string): string {
    DropTrailingDashes(DropLeadingDashes(CollapseRuns(Lower(name))))
  }

  /** `base || 'tenant'`. */
  function ChosenBase(name: string): string {
    var base := SlugBase(name);
    if base == [] then "tenant" else base
  }

  /** `slugify(name)` with its random four-character suffix as a parameter. */
  function Slugify(name: string, suffix: string): string {
    ChosenBase(name) + "-" + suffix
  }

  /** A slice of a string keeps its alphabet and its single dashes. */
  lemma SliceKeepsShape(s: string, a: nat, b: nat)
    requires a <= b <= |s| && SlugAlphabet(s) && NoDoubleDash(s)
    ensures SlugAlphabet(s[a..b]) && NoDoubleDash(s[a..b])
  {
    var t := s[a..b];
    forall i | 0 <= i < |t| - 1 && t[i] == '-' ensures t[i + 1] != '-' {
      assert t[i] == s[a + i] && t[i + 1] == s[a + i + 1];
    }
  }

  /** The base is a clean slug base. */
  lemma SlugBaseIsClean(name: string)
    ensures CleanBase(SlugBase(name))
  {
    var c := CollapseRuns(Lower(name));
    var l := DropLeadingDashes(c);
    SliceKeepsShape(c, |c| - |l|, |c|);
    var r := DropTrailingDashes(l);
    SliceKeepsShape(l, 0, |r|);
    if r != [] {
      assert r[0] == l[0];
    }
  }

  lemma {:induction false} SlugCharsAppend(a: string, b: string)
    ensures SlugChars(a + b) == SlugChars(a) + SlugChars(b)
    decreases |a|
  {
    if a == [] {
      assert a + b == b;
    } else {
      var h := if IsSlugChar(a[0]) then [a[0]] else [];
      assert (a + b)[0] == a[0] && (a + b)[1..] == a[1..] + b;
      SlugCharsAppend(a[1..], b);
      calc {
        SlugChars(a + b);
        h + SlugChars(a[1..] + b);
        h + (SlugChars(a[1..]) + SlugChars(b));
        (h + SlugChars(a[1..])) + SlugChars(b);
      }
    }
  }

  /** A string without slug characters contributes none. */
  lemma {:induction false} SlugCharsOfNone(s: string)
    requires forall i :: 0 <= i < |s| ==> !IsSlugChar(s[i])
    ensures SlugChars(s) == []
    decreases |s|
  {
    if s != [] {
      SlugCharsOfNone(s[1..]);
    }
  }

  lemma {:induction false} SlugCharsCollapse(s: string)
    ensures SlugChars(CollapseRuns(s)) == SlugChars(s)
    decreases |s|
  {
    if s == [] {
    } else if IsSlugChar(s[0]) {
      SlugCharsCollapse(s[1..]);
      SlugCharsAppend([s[0]], CollapseRuns(s[1..]));
    } else {
      var t := s[1..];
      var k := SkipRun(t);
      SlugCharsCollapse(k);
      SlugCharsAppend("-", CollapseRuns(k));
      assert t == t[..|t| - |k|] + k;
      SlugCharsAppend(t[..|t| - |k|], k);
      SlugCharsOfNone(t[..|t| - |k|]);
    }
  }

  lemma SlugCharsDropLeading(s: string)
    ensures SlugChars(DropLeadingDashes(s)) == SlugChars(s)
  {
    var l := DropLeadingDashes(s);
    var dashes := s[..|s| - |l|];
    assert s == dashes + l;
    SlugCharsAppend(dashes, l);
    SlugCharsOfNone(dashes);
  }

  lemma SlugCharsDropTrailing(s: string)
    ensures SlugChars(DropTrailingDashes(s)) == SlugChars(s)
  {
    var r := DropTrailingDashes(s);
    var dashes := s[|r|..];
    assert s == r + dashes;
    SlugCharsAppend(r, dashes);
    SlugCharsOfNone(dashes);
  }

  /** Slug cleaning keeps every ASCII letter and digit of the lower-cased name, in order. */
  lemma SlugBaseKeepsLettersAndDigits(name: string)
    ensures SlugChars(SlugBase(name)) == SlugChars(Lower(name))
  {
    SlugCharsCollapse(Lower(name));
    SlugCharsDropLeading(CollapseRuns(Lower(name)));
    SlugCharsDropTrailing(DropLeadingDashes(CollapseRuns(Lower(name))));
  }

  /** The base is empty exactly when the lower-cased name has no ASCII letter or digit. */
  lemma SlugBaseEmptyIff(name: string)
    ensures SlugBase(name) == [] <==> SlugChars(Lower(name)) == []
  {
    var b := SlugBase(name);
    SlugBaseKeepsLettersAndDigits(name);
    SlugBaseIsClean(name);
    if b != [] {
      assert IsSlugChar(b[0]);
      assert SlugChars(b) == [b[0]] + SlugChars(b[1..]);
    }
  }

  /**
   * `slugify` yields a clean, non-empty base, then '-', then the suffix; the
   * base is "tenant" when the name has no ASCII letter or digit, and
   * otherwise keeps all of them.
   */
  lemma SlugifyShape(name: string)
    ensures CleanBase(ChosenBase(name)) && ChosenBase(name) != []
    ensures SlugChars(Lower(name)) == [] ==> ChosenBase(name) == "tenant"
    ensures SlugChars(Lower(name)) != [] ==> SlugChars(ChosenBase(name)) == SlugChars(Lower(name))
  {
    SlugBaseIsClean(name);
    SlugBaseEmptyIff(name);
    SlugBaseKeepsLettersAndDigits(name);
    TenantIsClean();
  }

  lemma TenantIsClean()
    ensures CleanBase("tenant")
  {
    var t := "tenant";
    assert forall i :: 0 <= i < |t| ==> IsSlugChar(t[i]);
  }

  lemma {:induction false} CollapseKeepsClean(s: string)
    requires SlugAlphabet(s) && NoDoubleDash(s)
    ensures CollapseRuns(s) == s
    decreases |s|
  {
    if s != [] {
      SliceKeepsShape(s, 1, |s|);
      if !IsSlugChar(s[0]) {
        assert s[1..] == [] || s[1] != '-';
        assert SkipRun(s[1..]) == s[1..];
      }
      CollapseKeepsClean(s[1..]);
      assert s == [s[0]] + s[1..];
    }
  }

  /** Cleaning is idempotent: the base of a base is itself. */
  lemma SlugBaseIdempotent(name: string)
    ensures SlugBase(SlugBase(name)) == SlugBase(name)
  {
    SlugBaseIsClean(name);
    CleanBaseIsFixed(SlugBase(name));
  }

  /** Cleaning leaves a clean base as it is. */
  lemma CleanBaseIsFixed(b: string)
    requires CleanBase(b)
    ensures SlugBase(b) == b
  {
    assert Lower(b) == b;
    CollapseKeepsClean(b);
    assert DropLeadingDashes(b) == b;
    assert DropTrailingDashes(b) == b;
  }

  // ---------------------------------------------------------- client URLs

  /** `CLIENT_URL_BASE || CLIENT_URL || 'http://localhost:3000/tenant'`. */
  function ClientUrlBase(clientUrlBase: Option<string>, clientUrl: Option<string>): (r: string)
    ensures r != []
    ensures Filled(clientUrlBase) ==> r == clientUrlBase.value
    ensures !Filled(clientUrlBase) && Filled(clientUrl) ==> r == clientUrl.value
    ensures !Filled(clientUrlBase) && !Filled(clientUrl) ==> r == "http://localhost:3000/tenant"
  {
    if Filled(clientUrlBase) then clientUrlBase.value
    else if Filled(clientUrl) then clientUrl.value
    else "http://localhost:3000/tenant"
  }

  /** `buildClientUrl(base, slug)`: at most one trailing '/' is removed from the base, then "/" + slug follows. */
  function BuildClientUrl(base: string, slug: string): (r: string)
    ensures exists clean :: r == clean + "/" + slug && (base == clean || base == clean + "/")
    ensures base == [] || base[|base| - 1] != '/' ==> r == base + "/" + slug
  {
    var clean := if base != [] && base[|base| - 1] == '/' then base[..|base| - 1] else base;
    assert base == clean || base == clean + "/";
    clean + "/" + slug
  }

  /** A trailing slash on a base that has none otherwise makes no difference. */
  lemma TrailingSlashIgnored(base: string, slug: string)
    requires base == [] || base[|base| - 1] != '/'
    ensures BuildClientUrl(base + "/", slug) == BuildClientUrl(base, slug) == base + "/" + slug
  {
    assert (base + "/")[..|base|] == base;
  }

  // -------------------------------------------------------------- preview

  datatype Environment = Environment(clientUrlBase: Option<string>, clientUrl: Option<string>)

  datatype PreviewBody = PreviewBody(slug: string, clientUrl: string)

  /** `preview`: the slug and client URL a company name would get; an absent name counts as "". */
  function Preview(companyName: Option<string>, env: Environment, suffix: string): (r: Response<PreviewBody>)
    ensures r.Refuse? <==> companyName.None? || IsBlank(companyName.value)
    ensures r.Refuse? ==> r == Refuse(400, "companyName is required")
    ensures r.Reply? ==> r.status == 200 && companyName.Some?
                         && r.body.slug == Slugify(Trim(companyName.value), suffix)
                         && r.body.clientUrl == BuildClientUrl(ClientUrlBase(env.clientUrlBase, env.clientUrl), r.body.slug)
  {
    match companyName
    case None => Refuse(400, "companyName is required")
    case Some(name) =>
      var trimmedName := Trim(name);
      if trimmedName == [] then Refuse(400, "companyName is required")
      else
        var slug := Slugify(trimmedName, suffix);
        Reply(200, PreviewBody(slug, BuildClientUrl(ClientUrlBase(env.clientUrlBase, env.clientUrl), slug)))
  }

  // -------------------------------------------------------------- confirm

  datatype ConfirmRequest = ConfirmRequest(
    trimmedName: Option<string>,
    phone: Option<string>,
    address: Option<string>,
    city: Option<string>,
    state: Option<string>,
    zip: Option<string>,
    country: Option<string>,
    adminEmail: Option<string>,
    adminPassword: Option<string>,
    sendgridFromEmail: Option<string>,
    tenantSlug: Option<string>)

  datatype Created = Created(
    tenantId: int,
    name: string,
    slug: string,
    clientUrl: string,
    sendgridFromEmail: Option<string>,
    adminId: int,
    adminEmail: string)

  /** `confirm` needs a truthy company name, admin email and admin password. */
  predicate ConfirmComplete(req: ConfirmRequest) {
    Filled(req.trimmedName) && Filled(req.adminEmail) && Filled(req.adminPassword)
  }

  /** `tenantSlug || slugify(trimmedName)`. */
  function ConfirmSlug(req: ConfirmRequest, suffix: string): (s: string)
    requires Filled(req.trimmedName)
    ensures Filled(req.tenantSlug) ==> s == req.tenantSlug.value
    ensures !Filled(req.tenantSlug) ==> s == Slugify(req.trimmedName.value, suffix)
  {
    if Filled(req.tenantSlug) then req.tenantSlug.value else Slugify(req.trimmedName.value, suffix)
  }

  /** The attributes `confirm` hands to `Tenant.create` (the request's `email` is not a Tenant attribute). */
  function ConfirmDraft(req: ConfirmRequest, slug: string, clientUrl: string): TenantDraft
    requires Filled(req.trimmedName)
  {
    TenantDraft(req.trimmedName, req.phone, req.address, req.city, req.state, req.zip, req.country,
                Some(slug), Some(clientUrl), req.sendgridFromEmail)
  }

  /** The first admin `confirm` creates for tenant `tenantId`. */
  function ConfirmAdmin(req: ConfirmRequest, tenantId: int, hash: string -> string): UserDraft
    requires ConfirmComplete(req)
  {
    UserDraft(Some(tenantId), Some(Lower(req.adminEmail.value)), Some(hash(req.adminPassword.value)),
              Some("Tenant Admin"), None, Some("admin"))
  }

  /**
   * Preview and confirm agree: confirming the trimmed name without an
   * explicit slug, with the same suffix and environment, uses the slug and
   * client URL that preview showed.
   */
  lemma PreviewMatchesConfirm(companyName: string, env: Environment, suffix: string, req: ConfirmRequest)
    requires !IsBlank(companyName)
    requires req.trimmedName == Some(Trim(companyName)) && !Filled(req.tenantSlug)
    ensures var p := Preview(Some(companyName), env, suffix).body;
      && ConfirmSlug(req, suffix) == p.slug
      && BuildClientUrl(ClientUrlBase(env.clientUrlBase, env.clientUrl), ConfirmSlug(req, suffix)) == p.clientUrl
  {
  }

  /**
   * `confirm`: refuses an incomplete request or a taken slug with 400 and
   * touches nothing; otherwise creates the tenant and then its admin in one
   * transaction, and any failure of either insert rolls both back (500).
   */
  method Confirm(db: Store, req: ConfirmRequest, env: Environment, suffix: string,
                 isEmail: string -> bool, hash: string -> string) returns (resp: Response<Created>)
    requires db.Valid()
    modifies db`tenants, db`nextTenantId, db`users, db`nextUserId
    ensures db.Valid()
    ensures !ConfirmComplete(req) ==> resp == Refuse(400, "companyName, adminEmail, adminPassword are required")
    ensures ConfirmComplete(req) && SlugTaken(old(db.tenants), ConfirmSlug(req, suffix)) ==>
              resp == Refuse(400, "Tenant slug already exists")
    ensures !resp.Reply? ==> db.tenants == old(db.tenants) && db.users == old(db.users)
    ensures resp.Reply? <==>
      && ConfirmComplete(req)
      && var slug := ConfirmSlug(req, suffix);
         var url := BuildClientUrl(ClientUrlBase(env.clientUrlBase, env.clientUrl), slug);
         var admin := ConfirmAdmin(req, old(db.nextTenantId), hash);
      && !SlugTaken(old(db.tenants), slug)
      && BuildTenant(ConfirmDraft(req, slug, url), isEmail).Ok? && !ClientUrlTaken(old(db.tenants), url)
      && BuildUser(admin, isEmail).Ok? && !EmailTaken(old(db.users), admin.email.value, old(db.nextTenantId))
    ensures resp.Reply? ==>
      && resp.status == 201 && ConfirmComplete(req)
      && resp.body.slug == ConfirmSlug(req, suffix)
      && resp.body.clientUrl == BuildClientUrl(ClientUrlBase(env.clientUrlBase, env.clientUrl), resp.body.slug)
      && |db.tenants| == |old(db.tenants)| + 1 && db.tenants[..|old(db.tenants)|] == old(db.tenants)
      && var t := db.tenants[|old(db.tenants)|];
      && t.id == resp.body.tenantId && t.val.name == req.trimmedName.value == resp.body.name
      && t.val.slug == resp.body.slug && t.val.clientUrl == resp.body.clientUrl
      && t.val.phone == req.phone && t.val.address == req.address && t.val.city == req.city
      && t.val.state == req.state && t.val.zip == req.zip && t.val.country == req.country
      && t.val.sendgridFromEmail == req.sendgridFromEmail
      && t.val.logoUrl.None? && t.val.estimateFieldConfig.None?
      && db.users == old(db.users) + [Row(resp.body.adminId, User(resp.body.tenantId, Lower(req.adminEmail.value),
                                      Some(hash(req.adminPassword.value)), "Tenant Admin", None, Admin))]
    ensures resp.Refuse? && resp.status == 500 ==> resp.message == "Failed to create tenant"
    ensures !resp.NoReply?
  {
    if !ConfirmComplete(req) {
      return Refuse(400, "companyName, adminEmail, adminPassword are required");
    }
    var slug := ConfirmSlug(req, suffix);
    var clientUrl := BuildClientUrl(ClientUrlBase(env.clientUrlBase, env.clientUrl), slug);
    if SlugTaken(db.tenants, slug) {
      return Refuse(400, "Tenant slug already exists");
    }
    var tenant := BuildTenant(ConfirmDraft(req, slug, clientUrl), isEmail);
    if tenant.Err? {
      return Refuse(500, "Failed to create tenant");
    }
    var savepoint := |db.tenants|;
    var tenantId := db.InsertTenant(tenant.value);
    if tenantId.Err? {
      return Refuse(500, "Failed to create tenant");
    }
    var admin := BuildUser(ConfirmAdmin(req, tenantId.value, hash), isEmail);
    if admin.Err? {
      db.RollbackTenants(savepoint);
      return Refuse(500, "Failed to create tenant");
    }
    var adminId := db.InsertUser(admin.value);
    if adminId.Err? {
      db.RollbackTenants(savepoint);
      return Refuse(500, "Failed to create tenant");
    }
    return Reply(201, Created(tenantId.value, tenant.value.name, slug, clientUrl, tenant.value.sendgridFromEmail,
                              adminId.value, admin.value.email));
  }

  // ------------------------------------------------------- update settings

  datatype SettingsBody = SettingsBody(
    id: int, name: string, slug: string, logoUrl: Option<string>, sendgridFromEmail: Option<string>)

  /** `req.file.path.replace(/\\/g, '/')`. */
  function ForwardSlashes(path: string): (r: string)
    ensures |r| == |path| && '\\' !in r
    ensures forall i :: 0 <= i < |path| && path[i] != '\\' ==> r[i] == path[i]
    ensures forall i :: 0 <= i < |path| && path[i] == '\\' ==> r[i] == '/'
  {
    seq(|path|, i requires 0 <= i < |path| => if path[i] == '\\' then '/' else path[i])
  }

  /** The public URL of an uploaded logo: protocol, "://", host, "/", then the path with forward slashes. */
  function LogoUrl(protocol: string, host: string, path: string): (r: string)
    ensures |r| == |protocol| + |host| + 4 + |path| && '\\' !in r[|protocol| + |host| + 4..]
    ensures r[..|protocol| + |host| + 4] == protocol + "://" + host + "/"
    ensures r[|protocol| + |host| + 4..] == ForwardSlashes(path)
  {
    var p := ForwardSlashes(path);
    var r := protocol + "://" + host + "/" + p;
    assert r[|protocol| + |host| + 4..] == p;
    r
  }

  /** An upload path written with backslashes and its forward-slash form give the same logo URL. */
  lemma LogoUrlIgnoresSlashStyle(protocol: string, host: string, path: string)
    ensures LogoUrl(protocol, host, path) == LogoUrl(protocol, host, ForwardSlashes(path))
  {
    assert ForwardSlashes(ForwardSlashes(path)) == ForwardSlashes(path);
  }

  /** The tenant after `updateSettings` assigns its name and logo. */
  function ApplySettings(t: Tenant, name: Option<string>, upload: Option<string>, protocol: string, host: string)
    : (r: Tenant)
    requires !(Filled(name) && IsBlank(name.value))
    ensures Filled(name) ==> r.name == Trim(name.value) && r.name != []
    ensures !Filled(name) ==> r.name == t.name
    ensures upload.Some? ==> r.logoUrl == Some(LogoUrl(protocol, host, upload.value))
    ensures upload.None? ==> r.logoUrl == t.logoUrl
    ensures r.(name := t.name, logoUrl := t.logoUrl) == t
  {
    var named := if Filled(name) then t.(name := Trim(name.value)) else t;
    if upload.Some? then named.(logoUrl := Some(LogoUrl(protocol, host, upload.value))) else named
  }

  /** A stored name is already trimmed: submitting it again leaves the tenant as it is. */
  lemma ApplySettingsStable(t: Tenant, name: string, protocol: string, host: string)
    requires name != [] && !IsBlank(name)
    ensures var once := ApplySettings(t, Some(name), None, protocol, host);
      ApplySettings(once, Some(once.name), None, protocol, host) == once
  {
    var once := ApplySettings(t, Some(name), None, protocol, host);
    TrimTwice(name);
    BlankIffTrimEmpty(once.name);
  }

  /** Trimming is idempotent. */
  lemma TrimTwice(s: string)
    ensures Trim(Trim(s)) == Trim(s)
  {
    var r := Trim(s);
    var r2 := Trim(r);
    var a, b :| 0 <= a <= b <= |r| && r2 == r[a..b] && AllWhitespace(r[..a]) && AllWhitespace(r[b..]);
    assert r2 == r[0..|r|];
  }

  /**
   * `updateSettings`: 404 without a tenant, 400 for a non-empty name that
   * is only white space; otherwise stores the trimmed name when one is given
   * and the uploaded logo's URL when a file came with the request.
   */
  method UpdateSettings(db: Store, tenantId: Option<int>, name: Option<string>, upload: Option<string>,
                        protocol: string, host: string) returns (resp: Response<SettingsBody>)
    requires db.Valid()
    modifies db`tenants
    ensures db.Valid()
    ensures (tenantId.None? || IndexOfId(old(db.tenants), tenantId.value).None?) ==>
              resp == Refuse(404, "Tenant not found") && db.tenants == old(db.tenants)
    ensures tenantId.Some? && IndexOfId(old(db.tenants), tenantId.value).Some? && Filled(name) && IsBlank(name.value) ==>
              resp == Refuse(400, "Name cannot be empty") && db.tenants == old(db.tenants)
    ensures resp.Reply? ==>
      && tenantId.Some? && IndexOfId(old(db.tenants), tenantId.value).Some?
      && !(Filled(name) && IsBlank(name.value))
      && var i := IndexOfId(old(db.tenants), tenantId.value).value;
         var t := ApplySettings(old(db.tenants[i].val), name, upload, protocol, host);
      && db.tenants == old(db.tenants)[i := Row(tenantId.value, t)]
      && resp == Reply(200, SettingsBody(tenantId.value, t.name, t.slug, t.logoUrl, t.sendgridFromEmail))
    ensures resp.Reply? || resp.Refuse?
  {
    if tenantId.None? {
      return Refuse(404, "Tenant not found");
    }
    var found := IndexOfId(db.tenants, tenantId.value);
    if found.None? {
      return Refuse(404, "Tenant not found");
    }
    if Filled(name) && IsBlank(name.value) {
      return Refuse(400, "Name cannot be empty");
    }
    var i := found.value;
    var t := ApplySettings(db.tenants[i].val, name, upload, protocol, host);
    db.SaveTenant(i, t.name, t.logoUrl, t.estimateFieldConfig);
    resp := Reply(200, SettingsBody(db.tenants[i].id, t.name, t.slug, t.logoUrl, t.sendgridFromEmail));
  }

  // --------------------------------------------------- update field config

  /** The verdict on one field of an estimate-field configuration. */
  datatype FieldCheck = FieldOk | MissingKeys | EmptyOptions | FieldThrows

  /** `f` is an object whose property `key` is truthy. */
  predicate HasTruthy(f: Value, key: string) {
    f.Obj? && key in f.props && Truthy(f.props[key])
  }

  /**
   * A field the configuration accepts: truthy `id`, `label` and `type`, and
   * a non-empty `options` array when the type is "select".
   */
  predicate WellFormedField(f: Value) {
    && HasTruthy(f, "id") && HasTruthy(f, "label") && HasTruthy(f, "type")
    && (f.props["type"] == Str("select") ==> "options" in f.props && IsNonEmptyArray(f.props["options"]))
  }

  /**
   * One iteration of the validation loop: reading a property of a null or
   * undefined field throws; a falsy `id`, `label` or `type` is refused, and
   * so is a select field whose `options` is not a non-empty array.
   */
  function CheckField(f: Value): (c: FieldCheck)
    ensures c == FieldThrows <==> f.Undefined? || f.Null?
    ensures c == FieldOk <==> WellFormedField(f)
    ensures c == MissingKeys <==>
              !(f.Undefined? || f.Null?) && !(HasTruthy(f, "id") && HasTruthy(f, "label") && HasTruthy(f, "type"))
    ensures c == FieldOk ==> f.Obj? && "id" in f.props && "label" in f.props && "type" in f.props
    ensures c == FieldOk && f.props["type"] == Str("select") ==> "options" in f.props && IsNonEmptyArray(f.props["options"])
  {
    match Get(f, "id")
    case None => FieldThrows
    case Some(id) =>
      var title := Get(f, "label").value;
      var kind := Get(f, "type").value;
      if !Truthy(id) || !Truthy(title) || !Truthy(kind) then MissingKeys
      else if kind == Str("select") && !IsNonEmptyArray(Get(f, "options").value) then EmptyOptions
      else FieldOk
  }

  /** The `for … of` loop over the fields: the first field that is not accepted decides. */
  method CheckFields(fields: seq<Value>) returns (c: FieldCheck)
    ensures c == FieldOk <==> forall i :: 0 <= i < |fields| ==> CheckField(fields[i]) == FieldOk
    ensures c != FieldOk ==> exists i :: 0 <= i < |fields| && c == CheckField(fields[i])
                                         && forall j :: 0 <= j < i ==> CheckField(fields[j]) == FieldOk
  {
    var k := 0;
    while k < |fields|
      invariant 0 <= k <= |fields|
      invariant forall j :: 0 <= j < k ==> CheckField(fields[j]) == FieldOk
    {
      var verdict := CheckField(fields[k]);
      if verdict != FieldOk {
        return verdict;
      }
      k := k + 1;
    }
    return FieldOk;
  }

  /** The first field that is not accepted is refused with `v`. */
  predicate FirstRefusalIs(fields: seq<Value>, v: FieldCheck) {
    exists i :: 0 <= i < |fields| && CheckField(fields[i]) == v
                && forall j :: 0 <= j < i ==> CheckField(fields[j]) == FieldOk
  }

  /** The reply body `{ fields }`. */
  function FieldsBody(fields: Value): (v: Value)
    ensures v.Obj? && v.props.Keys == {"fields"} && v.props["fields"] == fields
  {
    Obj(map["fields" := fields])
  }

  /**
   * `updateFieldConfig` as written: `estimateFieldConfig` is not an attribute
   * of the Tenant model, so the assignment sets a plain property that
   * `save()` does not write. The handler validates and answers as below, but
   * the store is left as it was.
   */
  method UpdateFieldConfigAsWritten(db: Store, tenantId: Option<int>, fields: Value) returns (resp: Response<Value>)
    requires db.Valid()
    ensures !fields.Arr? ==> resp == Refuse(400, "fields must be an array")
    ensures fields.Arr? && FirstRefusalIs(fields.items, MissingKeys) ==>
              resp == Refuse(400, "Each field requires id, label, and type")
    ensures fields.Arr? && FirstRefusalIs(fields.items, EmptyOptions) ==>
              resp == Refuse(400, "Select fields require non-empty options")
    ensures fields.Arr? && FirstRefusalIs(fields.items, FieldThrows) ==> resp == NoReply
    ensures fields.Arr? && (forall i :: 0 <= i < |fields.items| ==> CheckField(fields.items[i]) == FieldOk) ==>
              resp == if tenantId.Some? && IndexOfId(db.tenants, tenantId.value).Some?
                      then Reply(200, FieldsBody(fields)) else Refuse(404, "Tenant not found")
  {
    if !fields.Arr? {
      return Refuse(400, "fields must be an array");
    }
    var verdict := CheckFields(fields.items);
    if verdict == MissingKeys {
      return Refuse(400, "Each field requires id, label, and type");
    } else if verdict == EmptyOptions {
      return Refuse(400, "Select fields require non-empty options");
    } else if verdict == FieldThrows {
      return NoReply;
    }
    if tenantId.None? || IndexOfId(db.tenants, tenantId.value).None? {
      return Refuse(404, "Tenant not found");
    }
    return Reply(200, FieldsBody(fields));
  }

  /**
   * `updateFieldConfig` with `estimateFieldConfig` declared on the Tenant
   * model: a non-array or a bad field is refused with 400 (a null field
   * throws outside the handler's try and nothing is sent); otherwise the
   * list is stored verbatim on the caller's tenant.
   */
  method UpdateFieldConfig(db: Store, tenantId: Option<int>, fields: Value) returns (resp: Response<Value>)
    requires db.Valid()
    modifies db`tenants
    ensures db.Valid()
    ensures !fields.Arr? ==> resp == Refuse(400, "fields must be an array")
    ensures !resp.Reply? ==> db.tenants == old(db.tenants)
    ensures fields.Arr? && FirstRefusalIs(fields.items, MissingKeys) ==>
              resp == Refuse(400, "Each field requires id, label, and type")
    ensures fields.Arr? && FirstRefusalIs(fields.items, EmptyOptions) ==>
              resp == Refuse(400, "Select fields require non-empty options")
    ensures fields.Arr? && FirstRefusalIs(fields.items, FieldThrows) ==> resp == NoReply
    ensures resp.Reply? ==>
      && fields.Arr? && (forall i :: 0 <= i < |fields.items| ==> CheckField(fields.items[i]) == FieldOk)
      && tenantId.Some? && IndexOfId(old(db.tenants), tenantId.value).Some?
      && var i := IndexOfId(old(db.tenants), tenantId.value).value;
      && db.tenants == old(db.tenants)[i := Row(tenantId.value, old(db.tenants[i].val).(estimateFieldConfig := Some(fields)))]
      && resp == Reply(200, FieldsBody(fields))
    ensures fields.Arr? && (forall i :: 0 <= i < |fields.items| ==> CheckField(fields.items[i]) == FieldOk) ==>
              (resp.Reply? <==> tenantId.Some? && IndexOfId(old(db.tenants), tenantId.value).Some?)
  {
    if !fields.Arr? {
      return Refuse(400, "fields must be an array");
    }
    var verdict := CheckFields(fields.items);
    if verdict == MissingKeys {
      return Refuse(400, "Each field requires id, label, and type");
    } else if verdict == EmptyOptions {
      return Refuse(400, "Select fields require non-empty options");
    } else if verdict == FieldThrows {
      return NoReply;
    }
    if tenantId.None? {
      return Refuse(404, "Tenant not found");
    }
    var found := IndexOfId(db.tenants, tenantId.value);
    if found.None? {
      return Refuse(404, "Tenant not found");
    }
    var t := db.tenants[found.value].val;
    db.SaveTenant(found.value, t.name, t.logoUrl, Some(fields));
    return Reply(200, FieldsBody(fields));
  }
}

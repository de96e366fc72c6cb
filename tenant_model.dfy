/**
 * The Tenant table: one row per business using the system, identified by a
 * unique slug and a unique client-facing URL.
 */
module TenantModel {
  import opened Wrappers
  import opened Tables
  import opened JsValues

  /**
   * `estimateFieldConfig` is read and written by the field-configuration
   * handlers but is not declared by the model file, so as written Sequelize
   * never stores it; it is kept here as the optional attribute they intend.
   */
  datatype Tenant = Tenant(
    name: string,
    phone: Option<string>,
    address: Option<string>,
    city: Option<string>,
    state: Option<string>,
    zip: Option<string>,
    country: Option<string>,
    slug: string,
    clientUrl: string,
    sendgridFromEmail: Option<string>,
    logoUrl: Option<string>,
    estimateFieldConfig: Option<Value>)

  /** The attribute values handed to `Tenant.create`; an attribute left unset is `None`. */
  datatype TenantDraft = TenantDraft(
    name: Option<string>,
    phone: Option<string>,
    address: Option<string>,
    city: Option<string>,
    state: Option<string>,
    zip: Option<string>,
    country: Option<string>,
    slug: Option<string>,
    clientUrl: Option<string>,
    sendgridFromEmail: Option<string>)

  /**
   * What the ORM stores for a draft: `name`, `slug` and `clientUrl` are NOT
   * NULL, a present `sendgridFromEmail` must pass the email validator, and
   * every other attribute may be null; a new tenant has no logo and no field
   * configuration.
   */
  function BuildTenant(d: TenantDraft, isEmail: string -> bool): (r: Result<Tenant, DbError>)
    ensures r.Ok? <==> d.name.Some? && d.slug.Some? && d.clientUrl.Some?
                       && (d.sendgridFromEmail.Some? ==> isEmail(d.sendgridFromEmail.value))
    ensures r.Ok? ==> r.value.logoUrl.None? && r.value.estimateFieldConfig.None?
    ensures r.Ok? ==> Some(r.value.name) == d.name && Some(r.value.slug) == d.slug
                      && Some(r.value.clientUrl) == d.clientUrl
                      && r.value.sendgridFromEmail == d.sendgridFromEmail
                      && r.value.phone == d.phone && r.value.address == d.address
                      && r.value.city == d.city && r.value.state == d.state
                      && r.value.zip == d.zip && r.value.country == d.country
  {
    if d.name.None? then Err(NotNullViolation("name"))
    else if d.slug.None? then Err(NotNullViolation("slug"))
    else if d.clientUrl.None? then Err(NotNullViolation("clientUrl"))
    else if d.sendgridFromEmail.Some? && !isEmail(d.sendgridFromEmail.value) then Err(ValidationError("sendgridFromEmail"))
    else Ok(Tenant(d.name.value, d.phone, d.address, d.city, d.state, d.zip, d.country,
                   d.slug.value, d.clientUrl.value, d.sendgridFromEmail, None, None))
  }

  /** The unique constraints on `slug` and on `clientUrl`. */
  ghost predicate SlugAndUrlUnique(t: seq<Row<Tenant>>) {
    forall x, y :: x in t && y in t && x.id != y.id ==>
      x.val.slug != y.val.slug && x.val.clientUrl != y.val.clientUrl
  }

  function SlugTaken(t: seq<Row<Tenant>>, slug: string): (b: bool)
    ensures b <==> exists i :: 0 <= i < |t| && t[i].val.slug == slug
  {
    FindFirst(t, (x: Tenant) => x.slug == slug).Some?
  }

  function ClientUrlTaken(t: seq<Row<Tenant>>, url: string): (b: bool)
    ensures b <==> exists i :: 0 <= i < |t| && t[i].val.clientUrl == url
  {
    FindFirst(t, (x: Tenant) => x.clientUrl == url).Some?
  }
}

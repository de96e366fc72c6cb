/**
 * The User table: admins and clients of a tenant. Clients may have no
 * password hash; the email is unique within a tenant.
 */
module UserModel {
  import opened Wrappers
  import opened Tables

  datatype Role = Admin | Client

  function RoleName(r: Role): string {
    match r
    case Admin => "admin"
    case Client => "client"
  }

  /** The ENUM column accepts exactly "admin" and "client". */
  function ParseRole(name: string): (r: Option<Role>)
    ensures r.Some? ==> RoleName(r.value) == name
    ensures r.None? ==> forall x :: RoleName(x) != name
  {
    if name == "admin" then Some(Admin)
    else if name == "client" then Some(Client)
    else None
  }

  datatype User = User(
    tenantId: int,
    email: string,
    passwordHash: Option<string>,
    name: string,
    phone: Option<string>,
    role: Role)

  /** The attribute values handed to `User.create`; an attribute left unset is `None`. */
  datatype UserDraft = UserDraft(
    tenantId: Option<int>,
    email: Option<string>,
    passwordHash: Option<string>,
    name: Option<string>,
    phone: Option<string>,
    role: Option<string>)

  /**
   * What the ORM stores for a draft: `tenantId`, `email` and `name` are NOT
   * NULL, the email must pass the email validator, the role must be one of
   * the enumeration and defaults to client; the hash may stay null.
   */
  function BuildUser(d: UserDraft, isEmail: string -> bool): (r: Result<User, DbError>)
    ensures r.Ok? <==> d.tenantId.Some? && d.email.Some? && isEmail(d.email.value) && d.name.Some?
                       && (d.role.Some? ==> ParseRole(d.role.value).Some?)
    ensures r.Ok? ==> r.value.role == (if d.role.Some? then ParseRole(d.role.value).value else Client)
    ensures r.Ok? ==> r.value.passwordHash == d.passwordHash && r.value.phone == d.phone
    ensures r.Ok? ==> Some(r.value.tenantId) == d.tenantId && Some(r.value.email) == d.email
                      && Some(r.value.name) == d.name
  {
    if d.tenantId.None? then Err(NotNullViolation("tenantId"))
    else if d.email.None? then Err(NotNullViolation("email"))
    else if !isEmail(d.email.value) then Err(ValidationError("email"))
    else if d.name.None? then Err(NotNullViolation("name"))
    else
      var role := if d.role.Some? then ParseRole(d.role.value) else Some(Client);
      if role.None? then Err(InvalidEnumValue("role"))
      else Ok(User(d.tenantId.value, d.email.value, d.passwordHash, d.name.value, d.phone, role.value))
  }

  /** The unique index `user_email_tenant` on (email, tenantId). */
  ghost predicate EmailUniqueWithinTenant(t: seq<Row<User>>) {
    forall x, y :: x in t && y in t && x.id != y.id ==>
      !(x.val.email == y.val.email && x.val.tenantId == y.val.tenantId)
  }

  function EmailTaken(t: seq<Row<User>>, email: string, tenantId: int): (b: bool)
    ensures b <==> exists i :: 0 <= i < |t| && t[i].val.email == email && t[i].val.tenantId == tenantId
  {
    FindFirst(t, (u: User) => u.email == email && u.tenantId == tenantId).Some?
  }
}

/**
 * User administration (server/controllers/userController.js): list users
 * without their password hashes, create a user, delete a user other than
 * oneself. The password hash function and the email validator are
 * parameters.
 */
module UserController {
  import opened Wrappers
  import opened JsStrings
  import opened Tables
  import opened Http
  import opened UserModel
  import opened Database

  /** A user as the handlers return it: every attribute except `password_hash`. */
  datatype UserView = UserView(id: int, tenantId: int, email: string, name: string, phone: Option<string>, role: Role)

  function ViewOf(u: Row<User>): (v: UserView)
    ensures v.id == u.id && v.email == u.val.email && v.role == u.val.role
  {
    UserView(u.id, u.val.tenantId, u.val.email, u.val.name, u.val.phone, u.val.role)
  }

  function Views(t: seq<Row<User>>): (vs: seq<UserView>)
    ensures |vs| == |t| && forall i :: 0 <= i < |t| ==> vs[i] == ViewOf(t[i])
  {
    seq(|t|, i requires 0 <= i < |t| => ViewOf(t[i]))
  }

  /**
   * `getUsers`: with a truthy `role` only the users of that role, otherwise
   * everyone, in key order and without hashes. A role outside the enumeration
   * is refused by the database (500).
   */
  function GetUsers(users: seq<Row<User>>, role: Option<string>): (r: Response<seq<UserView>>)
    ensures Filled(role) && ParseRole(role.value).None? ==> r == Refuse(500, "Server error")
    ensures !Filled(role) ==> r == Reply(200, Views(users))
    ensures r.Reply? && Filled(role) ==>
      && r.status == 200
      && (forall i :: 0 <= i < |r.body| ==> RoleName(r.body[i].role) == role.value)
      && (forall u :: u in users && RoleName(u.val.role) == role.value ==> ViewOf(u) in r.body)
      && (forall i :: 0 <= i < |r.body| ==> exists u :: u in users && r.body[i] == ViewOf(u))
      && (Ascending(users) ==> forall i, j :: 0 <= i < j < |r.body| ==> r.body[i].id < r.body[j].id)
    ensures !r.NoReply?
  {
    if !Filled(role) then Reply(200, Views(users))
    else
      match ParseRole(role.value)
      case None => Refuse(500, "Server error")
      case Some(wanted) =>
        var rows := Where(users, (u: User) => u.role == wanted);
        var vs := Views(rows);
        assert forall u :: u in users && RoleName(u.val.role) == role.value ==> ViewOf(u) in vs by {
          forall u | u in users && RoleName(u.val.role) == role.value ensures ViewOf(u) in vs {
            var i :| 0 <= i < |users| && users[i] == u;
            assert u.val.role == wanted;
            assert u in rows;
            var k :| 0 <= k < |rows| && rows[k] == u;
            assert vs[k] == ViewOf(u);
          }
        }
        assert forall i :: 0 <= i < |vs| ==> exists u :: u in users && vs[i] == ViewOf(u) by {
          forall i | 0 <= i < |vs| ensures exists u :: u in users && vs[i] == ViewOf(u) {
            assert rows[i] in users && vs[i] == ViewOf(rows[i]);
          }
        }
        Reply(200, vs)
  }

  datatype UserRequest = UserRequest(
    name: Option<string>,
    email: Option<string>,
    password: Option<string>,
    role: Option<string>,
    phone: Option<string>)

  /**
   * The stored hash: an admin's password is always hashed (the handler has
   * already refused a falsy one); anyone else's only when it is not blank.
   */
  function PasswordHash(req: UserRequest, hash: string -> string): (h: Option<string>)
    ensures req.role == Some("admin") && req.password.Some? ==> h == Some(hash(req.password.value))
    ensures req.role != Some("admin") ==>
              (h.Some? <==> req.password.Some? && !IsBlank(req.password.value))
    ensures h.Some? ==> req.password.Some? && h == Some(hash(req.password.value))
  {
    if req.role == Some("admin") then
      if req.password.Some? then Some(hash(req.password.value)) else None
    else if req.password.Some? && !IsBlank(req.password.value) then Some(hash(req.password.value))
    else None
  }

  /** The attributes handed to `User.create`; `role || 'client'`. */
  function UserData(req: UserRequest, tenantId: Option<int>, hash: string -> string): (d: UserDraft)
    ensures d.tenantId == tenantId && d.email == req.email && d.name == req.name && d.phone == req.phone
    ensures d.passwordHash == PasswordHash(req, hash)
    ensures d.role == (if Filled(req.role) then req.role else Some("client"))
  {
    UserDraft(tenantId, req.email, PasswordHash(req, hash), req.name, req.phone,
              if Filled(req.role) then req.role else Some("client"))
  }

  /** The guards before `User.create`, shared by both versions below. */
  function CreateUserGuard(users: seq<Row<User>>, req: UserRequest): (r: Option<Response<UserView>>)
    ensures req.email.None? ==> r == Some(Refuse(500, "Server error creating user"))
    ensures req.email.Some? && (exists i :: 0 <= i < |users| && users[i].val.email == req.email.value) ==>
              r == Some(Refuse(400, "User with this email already exists"))
    ensures req.email.Some? && (forall i :: 0 <= i < |users| ==> users[i].val.email != req.email.value) ==>
              (r.Some? <==> req.role == Some("admin") && !Filled(req.password))
    ensures r.Some? && r.value.Refuse? && r.value.status == 400 && r.value.message != "User with this email already exists" ==>
              r.value.message == "Password is required for Admin users"
    ensures r.Some? ==> r.value.Refuse?
  {
    if req.email.None? then Some(Refuse(500, "Server error creating user"))
    else if FindFirst(users, (u: User) => u.email == req.email.value).Some? then
      Some(Refuse(400, "User with this email already exists"))
    else if req.role == Some("admin") && !Filled(req.password) then
      Some(Refuse(400, "Password is required for Admin users"))
    else None
  }

  /** Without a tenant the NOT NULL `tenantId` refuses every user row, whatever the request. */
  lemma UserWithoutTenantRejected(req: UserRequest, hash: string -> string, isEmail: string -> bool)
    ensures BuildUser(UserData(req, None, hash), isEmail) == Err(NotNullViolation("tenantId"))
  {
  }

  /**
   * `createUser` as written: past the guards `User.create` is handed no
   * `tenantId`, so it always fails with 500 and nothing is stored.
   */
  method CreateUserAsWritten(db: Store, req: UserRequest, hash: string -> string, isEmail: string -> bool)
    returns (resp: Response<UserView>)
    requires db.Valid()
    ensures CreateUserGuard(db.users, req).Some? ==> resp == CreateUserGuard(db.users, req).value
    ensures CreateUserGuard(db.users, req).None? ==> resp == Refuse(500, "Server error creating user")
  {
    var guard := CreateUserGuard(db.users, req);
    if guard.Some? {
      return guard.value;
    }
    var created := BuildUser(UserData(req, None, hash), isEmail);
    assert created.Err?;
    return Refuse(500, "Server error creating user");
  }

  /**
   * `createUser` with the user filed under the given tenant: past the
   * guards the user is stored with the request's attributes, the hash rule
   * above and role `role || 'client'`; a row the table refuses gives 500.
   */
  method CreateUser(db: Store, req: UserRequest, tenantId: int, hash: string -> string, isEmail: string -> bool)
    returns (resp: Response<UserView>)
    requires db.Valid()
    modifies db`users, db`nextUserId
    ensures db.Valid()
    ensures CreateUserGuard(old(db.users), req).Some? ==> resp == CreateUserGuard(old(db.users), req).value
    ensures !resp.Reply? ==> db.users == old(db.users)
    ensures resp.Reply? <==>
      CreateUserGuard(old(db.users), req).None? && BuildUser(UserData(req, Some(tenantId), hash), isEmail).Ok?
    ensures resp.Reply? ==>
      && resp.status == 201
      && |db.users| == |old(db.users)| + 1 && db.users[..|old(db.users)|] == old(db.users)
      && var u := db.users[|old(db.users)|];
      && resp.body == ViewOf(u)
      && u.val.tenantId == tenantId && Some(u.val.email) == req.email && Some(u.val.name) == req.name
      && u.val.phone == req.phone
      && u.val.passwordHash == PasswordHash(req, hash)
      && RoleName(u.val.role) == (if Filled(req.role) then req.role.value else "client")
  {
    var guard := CreateUserGuard(db.users, req);
    if guard.Some? {
      return guard.value;
    }
    var created := BuildUser(UserData(req, Some(tenantId), hash), isEmail);
    if created.Err? {
      return Refuse(500, "Server error creating user");
    }
    var id := db.InsertUser(created.value);
    if id.Err? {
      // the guard already refused every stored email, so the unique index cannot object
      assert false;
      return Refuse(500, "Server error creating user");
    }
    ParseRoleName(created.value.role);
    return Reply(201, ViewOf(Row(id.value, created.value)));
  }

  /** A role read from its name prints back as that name. */
  lemma ParseRoleName(r: Role)
    ensures ParseRole(RoleName(r)) == Some(r)
  {
  }

  /**
   * `deleteUser`: 404 for an unknown id, 400 when the caller targets
   * themselves; otherwise exactly that user is removed.
   */
  method DeleteUser(db: Store, id: int, callerId: Option<int>) returns (resp: Response<string>)
    requires db.Valid()
    modifies db`users
    ensures db.Valid()
    ensures IndexOfId(old(db.users), id).None? ==> resp == Refuse(404, "User not found")
    ensures IndexOfId(old(db.users), id).Some? && callerId == Some(id) ==> resp == Refuse(400, "Cannot delete yourself")
    ensures !resp.Reply? ==> db.users == old(db.users)
    ensures resp.Reply? <==> IndexOfId(old(db.users), id).Some? && callerId != Some(id)
    ensures resp.Reply? ==> resp == Reply(200, "User deleted") && db.users == DeleteId(old(db.users), id)
  {
    var found := IndexOfId(db.users, id);
    if found.None? {
      return Refuse(404, "User not found");
    }
    if callerId == Some(id) {
      return Refuse(400, "Cannot delete yourself");
    }
    db.DeleteUser(id);
    return Reply(200, "User deleted");
  }
}

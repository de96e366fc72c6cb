/**
 * Admin login (server/controllers/authController.js). Password comparison
 * and token signing are parameters standing for bcrypt and jsonwebtoken.
 */
module AuthController {
  import opened Wrappers
  import opened Tables
  import opened Http
  import opened UserModel

  datatype LoginRequest = LoginRequest(email: Option<string>, password: Option<string>)

  /** The reply of a successful login: the token and the user without its hash. */
  datatype LoginBody = LoginBody(token: string, id: int, name: string, email: string, role: string)

  /** `User.findOne({ where: { email } })`: the lowest-id user with that exact email, in any tenant. */
  function FindByEmail(users: seq<Row<User>>, email: string): (r: Option<nat>)
    ensures r.None? <==> forall i :: 0 <= i < |users| ==> users[i].val.email != email
    ensures r.Some? ==> r.value < |users| && users[r.value].val.email == email
                        && forall j :: 0 <= j < r.value ==> users[j].val.email != email
  {
    FindFirst(users, (u: User) => u.email == email)
  }

  /**
   * `login`: 401 for an unknown email, 403 for a user who is not an admin,
   * 401 again for a wrong password, otherwise a token signed over the user's
   * id and role. A missing email, a missing password or a user without a
   * hash make the query or the comparison throw (500).
   */
  function Login(users: seq<Row<User>>, req: LoginRequest, compare: (string, string) -> bool,
                 sign: (int, string) -> string): (r: Response<LoginBody>)
    ensures req.email.None? ==> r == Refuse(500, "Server error")
    ensures req.email.Some? && FindByEmail(users, req.email.value).None? ==> r == Refuse(401, "Invalid credentials")
    ensures req.email.Some? && FindByEmail(users, req.email.value).Some?
            && users[FindByEmail(users, req.email.value).value].val.role != Admin ==>
              r == Refuse(403, "Access denied. Admins only.")
    ensures req.email.Some? && FindByEmail(users, req.email.value).Some? ==>
              var u := users[FindByEmail(users, req.email.value).value];
              && (u.val.role == Admin && (req.password.None? || u.val.passwordHash.None?) ==>
                    r == Refuse(500, "Server error"))
              && (u.val.role == Admin && req.password.Some? && u.val.passwordHash.Some?
                  && !compare(req.password.value, u.val.passwordHash.value) ==>
                    r == Refuse(401, "Invalid credentials"))
    ensures r.Reply? <==>
      && req.email.Some? && FindByEmail(users, req.email.value).Some?
      && var u := users[FindByEmail(users, req.email.value).value];
      && u.val.role == Admin && req.password.Some? && u.val.passwordHash.Some?
      && compare(req.password.value, u.val.passwordHash.value)
    ensures r.Reply? ==>
      var u := users[FindByEmail(users, req.email.value).value];
      r == Reply(200, LoginBody(sign(u.id, "admin"), u.id, u.val.name, u.val.email, "admin"))
    ensures !r.NoReply?
  {
    if req.email.None? then Refuse(500, "Server error")
    else
      match FindByEmail(users, req.email.value)
      case None => Refuse(401, "Invalid credentials")
      case Some(i) =>
        var u := users[i];
        if u.val.role != Admin then Refuse(403, "Access denied. Admins only.")
        else if req.password.None? || u.val.passwordHash.None? then Refuse(500, "Server error")
        else if !compare(req.password.value, u.val.passwordHash.value) then Refuse(401, "Invalid credentials")
        else Reply(200, LoginBody(sign(u.id, RoleName(u.val.role)), u.id, u.val.name, u.val.email, RoleName(u.val.role)))
  }

  /** A wrong password for an admin gets the very reply an unknown email gets. */
  lemma WrongPasswordLooksLikeUnknownEmail(users: seq<Row<User>>, req: LoginRequest, unknown: LoginRequest,
                                           compare: (string, string) -> bool, sign: (int, string) -> string)
    requires req.email.Some? && FindByEmail(users, req.email.value).Some?
    requires var u := users[FindByEmail(users, req.email.value).value];
      u.val.role == Admin && req.password.Some? && u.val.passwordHash.Some?
      && !compare(req.password.value, u.val.passwordHash.value)
    requires unknown.email.Some? && FindByEmail(users, unknown.email.value).None?
    ensures Login(users, req, compare, sign) == Login(users, unknown, compare, sign) == Refuse(401, "Invalid credentials")
  {
  }

  /** A non-admin is turned away before any password check: the password and the comparison do not matter. */
  lemma NonAdminRefusedBeforePasswordCheck(users: seq<Row<User>>, email: string, p1: Option<string>, p2: Option<string>,
                                           c1: (string, string) -> bool, c2: (string, string) -> bool,
                                           sign: (int, string) -> string)
    requires FindByEmail(users, email).Some? && users[FindByEmail(users, email).value].val.role == Client
    ensures Login(users, LoginRequest(Some(email), p1), c1, sign) == Login(users, LoginRequest(Some(email), p2), c2, sign)
  {
  }
}

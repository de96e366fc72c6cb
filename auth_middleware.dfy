/**
 * Request authentication (server/middleware/authMiddleware.js): the bearer
 * token is the second space-separated piece of the Authorization header;
 * token verification is a parameter standing for jsonwebtoken.
 */
module AuthMiddleware {
  import opened Wrappers
  import opened JsStrings
  import opened JsValues

  /** `authHeader && authHeader.split(' ')[1]`, kept only when truthy. */
  function BearerToken(header: Option<string>): (t: Option<string>)
    ensures t.Some? ==> t.value != [] && ' ' !in t.value
    ensures t.Some? ==> Filled(header) && |Split(header.value, ' ')| >= 2 && t.value == Split(header.value, ' ')[1]
    ensures t.None? ==> !Filled(header) || |Split(header.value, ' ')| < 2 || Split(header.value, ' ')[1] == []
  {
    if !Filled(header) then None
    else
      var parts := Split(header.value, ' ');
      if |parts| < 2 || parts[1] == [] then None else Some(parts[1])
  }

  /** The header a client builds, "Bearer " + token, gives the token back. */
  lemma BearerRoundTrip(token: string)
    requires token != [] && ' ' !in token
    ensures BearerToken(Some("Bearer " + token)) == Some(token)
  {
    assert "Bearer " + token == "Bearer" + [' '] + token;
    SplitAtFirst("Bearer", token, ' ');
    SplitWithout(token, ' ');
  }

  /** Whatever scheme word precedes it, only the second piece counts. */
  lemma AnySchemeWord(scheme: string, token: string)
    requires token != [] && ' ' !in token && ' ' !in scheme
    ensures BearerToken(Some(scheme + " " + token)) == Some(token)
  {
    assert scheme + " " + token == scheme + [' '] + token;
    SplitAtFirst(scheme, token, ' ');
    SplitWithout(token, ' ');
  }

  /** What the middleware does with a request. */
  datatype Decision = Continue(user: Value) | Status(code: int)

  /**
   * `authenticateToken`: 401 without a token, 403 when verification fails,
   * otherwise continue with the decoded payload as `req.user`.
   */
  function AuthenticateToken(header: Option<string>, verify: string -> Option<Value>): (d: Decision)
    ensures BearerToken(header).None? ==> d == Status(401)
    ensures BearerToken(header).Some? && verify(BearerToken(header).value).None? ==> d == Status(403)
    ensures d.Continue? <==> BearerToken(header).Some? && verify(BearerToken(header).value).Some?
    ensures d.Continue? ==> d.user == verify(BearerToken(header).value).value
  {
    match BearerToken(header)
    case None => Status(401)
    case Some(token) =>
      match verify(token)
      case None => Status(403)
      case Some(payload) => Continue(payload)
  }

  /** `requireAdmin`: passes exactly when `req.user` is set and its `role` is the string "admin". */
  function RequireAdmin(user: Option<Value>): (d: Decision)
    ensures d.Continue? <==> user.Some? && Truthy(user.value) && Get(user.value, "role") == Some(Str("admin"))
    ensures !d.Continue? ==> d == Status(403)
  {
    if user.Some? && Truthy(user.value) && Get(user.value, "role") == Some(Str("admin")) then Continue(user.value)
    else Status(403)
  }
}

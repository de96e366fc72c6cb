/**
 * The route guard of the React client
 * (client/src/components/ProtectedRoute.jsx): what a protected page shows
 * given the auth context's `loading` flag, its user, and the role the route
 * asks for.
 */
module ProtectedRoute {
  import opened Wrappers
  import opened JsStrings

  /** The signed-in user as the auth context holds it; only the role is read. */
  datatype SessionUser = SessionUser(role: Option<string>)

  datatype View = LoadingView | Redirect(to: string) | Children

  const LoginPath := "/admin/login"
  const HomePath := "/"

  /**
   * Loading first, then a missing user, then a required role that the
   * user's role does not equal.
   */
  function Guard(loading: bool, user: Option<SessionUser>, role: Option<string>): (v: View)
    ensures loading ==> v == LoadingView
    ensures !loading && user.None? ==> v == Redirect(LoginPath)
    ensures !loading && user.Some? && Filled(role) && user.value.role != role ==> v == Redirect(HomePath)
    ensures v == Children <==> !loading && user.Some? && (!Filled(role) || user.value.role == role)
  {
    if loading then LoadingView
    else if user.None? then Redirect(LoginPath)
    else if Filled(role) && user.value.role != role then Redirect(HomePath)
    else Children
  }

  /** A route that asks for no role lets in everyone a role-restricted route lets in. */
  lemma NoRoleIsLaxer(loading: bool, user: Option<SessionUser>, role: Option<string>)
    requires Guard(loading, user, role) == Children
    ensures Guard(loading, user, None) == Children
  {
  }

  /** Only a signed-in user is ever sent home; everyone else is sent to the login page or kept waiting. */
  lemma HomeOnlyForSignedIn(loading: bool, user: Option<SessionUser>, role: Option<string>)
    ensures Guard(loading, user, role) == Redirect(HomePath) ==> user.Some? && Filled(role)
    ensures Guard(loading, user, role) == Redirect(LoginPath) <==> !loading && user.None?
  {
  }
}

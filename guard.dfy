/**
 * `ProtectedRoute`: the per-navigation decision, made in three checks in a
 * fixed order (still loading, then no user, then not an admin where one is
 * required). It reads the provider's `user` and `isLoading` only, never the token.
 */
module Guard {
  import opened Wrappers
  import opened Text
  import opened Auth

  const LoginPath := "/login"
  const UnauthorizedPath := "/unauthorized"

  /** The placeholder, a `<Navigate>` element, or the children inside the layout. */
  datatype Decision = Loading | Redirect(to: string, replace: bool) | Render

  function Decide(isLoading: bool, user: Option<User>, requireAdmin: bool := false): (d: Decision)
    ensures d == Loading <==> isLoading
    ensures d == Redirect(LoginPath, true) <==> !isLoading && user.None?
    ensures d == Redirect(UnauthorizedPath, true) <==> !isLoading && user.Some? && requireAdmin && !IsAdmin(user)
    ensures d == Render <==> !isLoading && user.Some? && (!requireAdmin || IsAdmin(user))
    ensures d.Redirect? ==> d.replace && (d.to == LoginPath || d.to == UnauthorizedPath)
  {
    if isLoading then Loading
    else if user.None? then Redirect(LoginPath, true)
    else if requireAdmin && !HasAdminRole(user.value.roles) then Redirect(UnauthorizedPath, true)
    else Render
  }

  /** Rendering an admin-only child means the context reports an admin. */
  lemma RenderedAdminRouteMeansAdmin(isLoading: bool, user: Option<User>, token: Option<string>)
    requires Decide(isLoading, user, true) == Render
    ensures IsAdmin(user) && user.Some?
    ensures IsAuthenticated(token, user) <==> Truthy(token)
  {
  }

  /**
   * The guard admits a user whose token is null or empty: the context then
   * reports `isAuthenticated` false while the protected page renders.
   */
  lemma AdmitsUserWithoutToken(user: User, requireAdmin: bool)
    requires !requireAdmin || HasAdminRole(user.roles)
    ensures Decide(false, Some(user), requireAdmin) == Render
    ensures !IsAuthenticated(None, Some(user)) && !IsAuthenticated(Some(""), Some(user))
  {
  }

  /**
   * The four states of an admin route, in the order a session goes through
   * them: loading, then no user, then a user without the admin role, then an admin.
   */
  lemma AdminRouteScenario(member: User, admin: User)
    requires !HasAdminRole(member.roles) && HasAdminRole(admin.roles)
    ensures Decide(true, None, true) == Loading && Decide(true, Some(admin), true) == Loading
    ensures Decide(false, None, true) == Redirect(LoginPath, true)
    ensures Decide(false, Some(member), true) == Redirect(UnauthorizedPath, true)
    ensures Decide(false, Some(member), false) == Render
    ensures Decide(false, Some(admin), true) == Render
  {
  }
}

/**
 * `AppRoutes`: the route table, and what a visit to a path shows once the
 * guard has had its say. Matching follows the router's default: paths are
 * compared without regard to ASCII case, trailing slashes are ignored, a
 * dashboard splat route also matches `/dashboard` itself, and the catch-all
 * `*` redirects everything else to `/`.
 */
module Routes {
  import opened Wrappers
  import opened Text
  import opened Auth
  import opened Guard

  const LandingPath := "/"
  const DashboardPrefix := "/dashboard"

  datatype Page = LandingPage | LoginPage | UnauthorizedPage | DashboardHome

  /** The element a route renders: a public page, a guarded page, or a `<Navigate>`. */
  datatype Element = Show(page: Page) | Protected(requireAdmin: bool, page: Page) | NavigateTo(to: string, replace: bool)

  predicate AllSlashes(s: string) {
    forall i :: 0 <= i < |s| ==> s[i] == '/'
  }

  /** A route without a splat: its path, then any number of slashes. */
  predicate MatchesExactly(path: string, route: string) {
    route <= path && AllSlashes(path[|route|..])
  }

  /** A splat route (a path ending in a star): its path, then nothing or a slash and anything. */
  predicate MatchesSubtree(path: string, route: string) {
    route <= path && (|path| == |route| || path[|route|] == '/')
  }

  function Resolve(path: string): (e: Element)
    ensures var p := Lower(path);
            && (MatchesExactly(p, LandingPath) ==> e == Show(LandingPage))
            && (MatchesExactly(p, LoginPath) ==> e == Show(LoginPage))
            && (MatchesExactly(p, UnauthorizedPath) ==> e == Show(UnauthorizedPage))
            && (MatchesSubtree(p, DashboardPrefix) ==> e == Protected(true, DashboardHome))
    ensures var p := Lower(path);
            (!MatchesExactly(p, LandingPath) && !MatchesExactly(p, LoginPath) && !MatchesExactly(p, UnauthorizedPath)
             && !MatchesSubtree(p, DashboardPrefix)) ==> e == NavigateTo(LandingPath, true)
    ensures e.NavigateTo? <==> e == NavigateTo(LandingPath, true)
  {
    var p := Lower(path);
    RoutesDisjoint(p);
    if MatchesExactly(p, LandingPath) then Show(LandingPage)
    else if MatchesExactly(p, LoginPath) then Show(LoginPage)
    else if MatchesExactly(p, UnauthorizedPath) then Show(UnauthorizedPage)
    else if MatchesSubtree(p, DashboardPrefix) then Protected(true, DashboardHome)
    else NavigateTo(LandingPath, true)
  }

  /** The four route patterns never overlap, so the order of the table does not matter. */
  lemma RoutesDisjoint(p: string)
    ensures MatchesExactly(p, LandingPath) ==> !MatchesExactly(p, LoginPath) && !MatchesExactly(p, UnauthorizedPath) && !MatchesSubtree(p, DashboardPrefix)
    ensures MatchesExactly(p, LoginPath) ==> !MatchesExactly(p, UnauthorizedPath) && !MatchesSubtree(p, DashboardPrefix)
    ensures MatchesExactly(p, UnauthorizedPath) ==> !MatchesSubtree(p, DashboardPrefix)
  {
    if MatchesExactly(p, LandingPath) && |p| > 1 {
      assert p[1] == p[|LandingPath|..][0] == '/';
    }
    if MatchesExactly(p, LoginPath) {
      assert p[1] == 'l';
    }
    if MatchesExactly(p, UnauthorizedPath) {
      assert p[1] == 'u';
    }
  }

  /** A path whose lower-cased form starts with `/dashboard` and then a slash or nothing. */
  lemma GuardedWhenSubtree(path: string)
    requires MatchesSubtree(Lower(path), DashboardPrefix)
    ensures Resolve(path) == Protected(true, DashboardHome)
  {
  }

  lemma LowerDashboard()
    ensures Lower(DashboardPrefix) == DashboardPrefix
    ensures Lower(Upper(DashboardPrefix)) == DashboardPrefix
  {
  }

  /** `/dashboard` and every path below `/dashboard/`, in any case, go through the admin guard. */
  lemma DashboardSubtreeIsGuarded(rest: string)
    ensures Resolve(DashboardPrefix) == Protected(true, DashboardHome)
    ensures Resolve(DashboardPrefix + "/" + rest) == Protected(true, DashboardHome)
    ensures Resolve(Upper(DashboardPrefix) + "/" + rest) == Protected(true, DashboardHome)
  {
    LowerDashboard();
    GuardedWhenSubtree(DashboardPrefix);
    var tail := "/" + rest;
    assert DashboardPrefix + "/" + rest == DashboardPrefix + tail;
    assert Upper(DashboardPrefix) + "/" + rest == Upper(DashboardPrefix) + tail;
    LowerOfConcat(DashboardPrefix, tail);
    LowerOfConcat(Upper(DashboardPrefix), tail);
    assert Lower(tail)[0] == '/';
    assert (DashboardPrefix + Lower(tail))[|DashboardPrefix|] == '/';
    GuardedWhenSubtree(DashboardPrefix + tail);
    GuardedWhenSubtree(Upper(DashboardPrefix) + tail);
  }

  /** Matching ignores case: a path resolves like its lower-cased form. */
  lemma ResolveIgnoresCase(path: string)
    ensures Resolve(Upper(path)) == Resolve(path)
  {
    LowerOfUpper(path);
  }

  /** The target of `logout` and of the 401 handler is not in the table. */
  lemma LogoutHrefIsNotARoute()
    ensures Resolve(LogoutHref) == NavigateTo(LandingPath, true)
  {
    assert Lower(LogoutHref) == LogoutHref;
    assert LogoutHref[..6] == LoginPath;
    assert LogoutHref[6] == 'p';
  }

  /** What the browser ends up showing for one visit to `path`. */
  datatype View = ShowPage(page: Page, inLayout: bool) | Spinner | Redirected(to: string, replace: bool)

  function Visit(path: string, isLoading: bool, user: Option<User>): (v: View)
    ensures Resolve(path).Show? ==> v == ShowPage(Resolve(path).page, false)
    ensures Resolve(path).NavigateTo? ==> v == Redirected(LandingPath, true)
    ensures Resolve(path).Protected? ==> match Decide(isLoading, user, Resolve(path).requireAdmin)
      case Loading => v == Spinner
      case Redirect(to, replace) => v == Redirected(to, replace)
      case Render => v == ShowPage(Resolve(path).page, true)
  {
    match Resolve(path)
    case Show(page) => ShowPage(page, false)
    case NavigateTo(to, replace) => Redirected(to, replace)
    case Protected(requireAdmin, page) =>
      match Decide(isLoading, user, requireAdmin)
      case Loading => Spinner
      case Redirect(to, replace) => Redirected(to, replace)
      case Render => ShowPage(page, true)
  }

  /**
   * Every redirect lands on a public page: following a redirect once more
   * shows a page, whatever the session, so redirects never loop.
   */
  lemma RedirectsEndOnPublicPages(path: string, isLoading: bool, user: Option<User>, isLoading': bool, user': Option<User>)
    requires Visit(path, isLoading, user).Redirected?
    ensures Visit(Visit(path, isLoading, user).to, isLoading', user').ShowPage?
    ensures !Visit(Visit(path, isLoading, user).to, isLoading', user').inLayout
  {
    var to := Visit(path, isLoading, user).to;
    assert to == LandingPath || to == LoginPath || to == UnauthorizedPath;
    assert Lower(LandingPath) == LandingPath;
    assert Lower(LoginPath) == LoginPath;
    assert Lower(UnauthorizedPath) == UnauthorizedPath;
    assert MatchesExactly(LoginPath, LoginPath);
    assert MatchesExactly(UnauthorizedPath, UnauthorizedPath);
  }

  /** A visitor without a user who opens the dashboard is sent to `/login`; a non-admin to `/unauthorized`. */
  lemma DashboardVisits(rest: string, member: User, admin: User)
    requires !HasAdminRole(member.roles) && HasAdminRole(admin.roles)
    ensures Visit(DashboardPrefix + "/" + rest, false, None) == Redirected(LoginPath, true)
    ensures Visit(DashboardPrefix + "/" + rest, false, Some(member)) == Redirected(UnauthorizedPath, true)
    ensures Visit(DashboardPrefix + "/" + rest, false, Some(admin)) == ShowPage(DashboardHome, true)
    ensures Visit(DashboardPrefix + "/" + rest, true, None) == Spinner
  {
    DashboardSubtreeIsGuarded(rest);
  }
}

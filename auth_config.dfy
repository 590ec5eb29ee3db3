/** The route-authorisation rule of the dashboard's NextAuth configuration: which
    requests are let through, which are refused (and sent to the sign-in page) and
    which are redirected to the dashboard. */
module AuthConfig {
  import opened Wrappers
  import opened Strings

  /** `pages.signIn`: where the framework sends a refused request. */
  const SignInPage: string := "/login"

  /** The protected area, and the page a signed-in user is sent to from elsewhere. */
  const DashboardPath: string := "/dashboard"

  /** Whatever NextAuth knows about a user; the rule only asks whether one is present. */
  datatype User = User(id: string, email: string)

  /** `auth`: the session, whose `user` may be absent. */
  datatype Session = Session(user: Option<User>, expires: string)

  /** `request.nextUrl`: origin (scheme, host, port), path and query of the request. */
  datatype Url = Url(origin: string, pathname: string, search: string)

  datatype Request = Request(nextUrl: Url)

  /** What `authorized` returns: `true`, `false`, or a `Response.redirect`. */
  datatype Decision = Allow | Deny | Redirect(location: Url)

  /** `!!auth?.user`. */
  predicate IsLoggedIn(auth: Option<Session>) {
    auth.Some? && auth.value.user.Some?
  }

  /** `pathname.startsWith('/dashboard')`: a plain prefix test, not a path-segment test. */
  predicate IsOnDashboard(pathname: string) {
    StartsWith(pathname, DashboardPath)
  }

  /** `new URL(path, base)` for an absolute path: keeps the base's origin, replaces the
      path and drops the query. */
  function ResolvePath(path: string, base: Url): Url {
    Url(base.origin, path, "")
  }

  /** The `authorized` callback. */
  function Authorized(auth: Option<Session>, request: Request): (d: Decision)
    ensures d.Deny? <==> !IsLoggedIn(auth) && IsOnDashboard(request.nextUrl.pathname)
    ensures d.Redirect? <==> IsLoggedIn(auth) && !IsOnDashboard(request.nextUrl.pathname)
    ensures d.Allow? <==> (IsLoggedIn(auth) <==> IsOnDashboard(request.nextUrl.pathname))
    ensures d.Redirect? ==> d.location.pathname == DashboardPath
                            && d.location.origin == request.nextUrl.origin
  {
    var isLoggedIn := IsLoggedIn(auth);
    var isOnDashboard := IsOnDashboard(request.nextUrl.pathname);
    if isOnDashboard then
      if isLoggedIn then Allow else Deny
    else if isLoggedIn then
      Redirect(ResolvePath(DashboardPath, request.nextUrl))
    else
      Allow
  }

  /** The path the browser is on once the framework has acted on a decision: an allowed
      request stays, a refused one goes to the sign-in page, a redirect goes to its target. */
  function Landing(d: Decision, request: Request): (u: Url)
    ensures d.Allow? ==> u == request.nextUrl
    ensures d.Deny? ==> u.pathname == SignInPage && u.origin == request.nextUrl.origin
    ensures d.Redirect? ==> u == d.location
  {
    match d
    case Allow => request.nextUrl
    case Deny => ResolvePath(SignInPage, request.nextUrl)
    case Redirect(location) => location
  }

  /** The protected set is every path with the textual prefix "/dashboard", including
      paths such as "/dashboardx" that are not below the "/dashboard" segment. */
  lemma ProtectedIsPrefix(pathname: string)
    ensures IsOnDashboard(pathname) <==> exists rest :: pathname == DashboardPath + rest
    ensures IsOnDashboard("/dashboardx") && IsOnDashboard(DashboardPath)
    ensures !IsOnDashboard(SignInPage) && !IsOnDashboard("/")
  {
    StartsWithIff(pathname, DashboardPath);
    assert "/dashboardx" == DashboardPath + "x";
    StartsWithIff("/dashboardx", DashboardPath);
  }

  /** A signed-in user is never refused; a signed-out user is never redirected. (That a
      request gets exactly one outcome follows from `Decision` having three distinct
      constructors.) */
  lemma NeverDenyLoggedIn(auth: Option<Session>, request: Request)
    ensures IsLoggedIn(auth) ==> Authorized(auth, request) != Deny
    ensures !IsLoggedIn(auth) ==> !Authorized(auth, request).Redirect?
  {
  }

  /** The decision depends only on whether a user is present and on the path (and, for
      the redirect target, the origin): the rest of the session and the query string do
      not matter. */
  lemma DependsOnlyOnFlagAndPath(a1: Option<Session>, r1: Request, a2: Option<Session>, r2: Request)
    requires IsLoggedIn(a1) == IsLoggedIn(a2)
    requires r1.nextUrl.pathname == r2.nextUrl.pathname
    requires r1.nextUrl.origin == r2.nextUrl.origin
    ensures Authorized(a1, r1) == Authorized(a2, r2)
  {
  }

  /** No redirect loop: whatever the framework does with the decision, the request for
      the page it lands on is allowed, for a signed-in and a signed-out user alike. */
  lemma SettlesInOneStep(auth: Option<Session>, request: Request)
    ensures Authorized(auth, Request(Landing(Authorized(auth, request), request))) == Allow
  {
  }
}

/** `authConfig.callbacks.authorized` in `src/app/config.ts`. */
module AuthConfig {
  import opened Wrappers
  import opened Strings

  datatype User = User(id: string)

  /** `{ user: any } | null`; a missing or falsy user is `None`. */
  datatype Auth = Auth(user: Option<User>)

  const DASHBOARD_PREFIX := "/dashboard"

  /** `!!auth?.user`. */
  predicate IsLoggedIn(auth: Option<Auth>)
  {
    auth.Some? && auth.value.user.Some?
  }

  /** `authorized`: the dashboard demands a user, every other path is open. */
  function Authorized(auth: Option<Auth>, pathname: string): (r: bool)
    ensures !r <==> StartsWith(pathname, DASHBOARD_PREFIX) && !IsLoggedIn(auth)
  {
    var isLoggedIn := IsLoggedIn(auth);
    var isOnDashboard := StartsWith(pathname, DASHBOARD_PREFIX);
    if isOnDashboard then isLoggedIn
    else if isLoggedIn then true
    else true
  }

  /** A signed-in user passes everywhere; signed out, only the dashboard is closed. */
  lemma AuthorizedCases(auth: Option<Auth>, pathname: string)
    ensures IsLoggedIn(auth) ==> Authorized(auth, pathname)
    ensures !StartsWith(pathname, DASHBOARD_PREFIX) ==> Authorized(auth, pathname)
    ensures Authorized(None, pathname) == !StartsWith(pathname, DASHBOARD_PREFIX)
    ensures Authorized(Some(Auth(None)), pathname) == Authorized(None, pathname)
  {
  }

  /** The prefix test also closes paths that only begin like the dashboard. */
  lemma DashboardOldProtected()
    ensures !Authorized(None, "/dashboard-old")
    ensures Authorized(None, "/dash")
  {
    assert "/dashboard-old"[..|DASHBOARD_PREFIX|] == DASHBOARD_PREFIX;
  }
}

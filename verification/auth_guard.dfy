/**
 * The `src` route guard: what a protected page shows, given the auth
 * store's user and initialisation flag, the page's required role and
 * fallback path, and the current location.
 */
module AuthGuard {
  import opened Wrappers
  import opened SrcTypes

  /** The guard's outcome: the loading text, a redirect (`from` is the location it remembers), or the page. */
  datatype Screen = Loading | Redirect(to: string, from: Option<string>) | Children

  const DefaultFallback := "/login"
  const Dashboard := "/dashboard"

  /** The fallback path when the prop is left out. */
  function FallbackOr(fallbackPath: Option<string>): (p: string)
    ensures fallbackPath.None? ==> p == DefaultFallback
    ensures fallbackPath.Some? ==> p == fallbackPath.value
  {
    fallbackPath.GetOr(DefaultFallback)
  }

  /** A user of `role` passes a page requiring `requiredRole`. */
  predicate Passes(role: UserRole, requiredRole: Option<UserRole>) {
    requiredRole.None? || role == requiredRole.value || role == Admin
  }

  /** `AuthGuard`: wait for initialisation, send visitors to the fallback, send the wrong role to the dashboard. */
  function Decide(user: Option<User>, isInitialized: bool, requiredRole: Option<UserRole>,
                  fallbackPath: Option<string>, pathname: string): (s: Screen)
    ensures !isInitialized <==> s == Loading
    ensures isInitialized && user.None? <==> s == Redirect(FallbackOr(fallbackPath), Some(pathname))
    ensures s == Redirect(Dashboard, None) <==>
              isInitialized && user.Some? && requiredRole.Some?
              && user.value.role != requiredRole.value && user.value.role != Admin
    ensures s == Children <==> isInitialized && user.Some? && Passes(user.value.role, requiredRole)
  {
    if !isInitialized then Loading
    else if user.None? then Redirect(FallbackOr(fallbackPath), Some(pathname))
    else if requiredRole.Some? && user.value.role != requiredRole.value && user.value.role != Admin then
      Redirect(Dashboard, None)
    else Children
  }

  /** An administrator sees every initialised page, whatever role it requires. */
  lemma AdminPassesAll(admin: User, requiredRole: Option<UserRole>, fallbackPath: Option<string>, pathname: string)
    requires admin.role == Admin
    ensures Decide(Some(admin), true, requiredRole, fallbackPath, pathname) == Children
  {
  }

  /** Before initialisation nothing else matters: the same loading screen for any user and any page. */
  lemma LoadingIgnoresUser(u1: Option<User>, u2: Option<User>, r1: Option<UserRole>, r2: Option<UserRole>,
                           f1: Option<string>, f2: Option<string>, p1: string, p2: string)
    ensures Decide(u1, false, r1, f1, p1) == Decide(u2, false, r2, f2, p2) == Loading
  {
  }
}

/** `Hacks/src/components/Auth/ProtectedRoute.tsx`: what a protected route renders. */
module ProtectedRoute {
  import opened Wrappers
  import opened HacksTypes

  datatype Screen = Spinner | RedirectToLogin | AccessDenied | Children

  /**
   * `requiredRole` is an optional array of roles; an empty array is still
   * present (arrays are truthy), so it admits nobody.
   */
  function Decide(isLoading: bool, user: Option<User>, requiredRole: Option<seq<Role>>): (r: Screen)
    ensures isLoading ==> r == Spinner
    ensures r == RedirectToLogin <==> !isLoading && user.None?
    ensures r == AccessDenied <==>
      !isLoading && user.Some? && requiredRole.Some? && user.value.role !in requiredRole.value
    ensures r == Children <==>
      !isLoading && user.Some? && (requiredRole.None? || user.value.role in requiredRole.value)
  {
    if isLoading then Spinner
    else if user.None? then RedirectToLogin
    else if requiredRole.Some? && user.value.role !in requiredRole.value then AccessDenied
    else Children
  }
}

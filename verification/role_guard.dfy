/** `Hacks/src/components/Auth/RoleGuard.tsx`: content shown only to the allowed roles. */
module RoleGuard {
  import opened Wrappers
  import opened HacksTypes

  datatype Screen = Fallback | AccessDenied | Children

  /** `hasFallback` says whether the `fallback` prop is a truthy node. */
  function Decide(user: Option<User>, allowedRoles: seq<Role>, hasFallback: bool): (r: Screen)
    ensures r == Children <==> user.Some? && user.value.role in allowedRoles
    ensures r == Fallback <==> hasFallback && !(user.Some? && user.value.role in allowedRoles)
    ensures r == AccessDenied <==> !hasFallback && !(user.Some? && user.value.role in allowedRoles)
  {
    if user.None? || user.value.role !in allowedRoles then
      (if hasFallback then Fallback else AccessDenied)
    else Children
  }

  /** An empty role list denies everyone, administrators included: there is no admin override. */
  lemma EmptyRolesDenyAll(user: Option<User>, hasFallback: bool)
    ensures Decide(user, [], hasFallback) != Children
  {
  }

  /** Only the listed roles pass: an administrator is refused by a list without Admin. */
  lemma NoAdminOverride(user: User, allowedRoles: seq<Role>, hasFallback: bool)
    requires user.role == Admin && Admin !in allowedRoles
    ensures Decide(Some(user), allowedRoles, hasFallback) != Children
  {
  }
}

/** The guard wrapped around protected parts of the dashboard: it merges the
    single required permission into the list, asks the session for any-of or
    all-of, and picks the protected content, the caller's fallback or the
    default "Access Denied" alert. */
module PermissionGuard {
  import opened Options
  import opened Rbac
  import opened AuthContext

  /** What the guard renders. */
  datatype Rendered = Children | Fallback | AccessDenied

  /** `requiredPermissions`, followed by `requiredPermission` when that is
      given and is not the empty string (an empty string is falsy). */
  function EffectiveList(requiredPermissions: seq<string>, requiredPermission: Option<string>): (r: seq<string>)
    ensures |requiredPermissions| <= |r| <= |requiredPermissions| + 1
    ensures r[..|requiredPermissions|] == requiredPermissions
    ensures forall x :: x in r <==>
              x in requiredPermissions ||
              (requiredPermission.Some? && requiredPermission.value != "" && x == requiredPermission.value)
  {
    if requiredPermission.Some? && requiredPermission.value != "" then
      requiredPermissions + [requiredPermission.value]
    else
      requiredPermissions
  }

  /** The access decision for the logged-in `user` (`requireAll` defaults to
      false at the call sites that omit it). */
  function HasAccess(user: Option<UserWithRole>, permissions: seq<string>, requireAll: bool): (r: bool)
    ensures r ==> user.Some? && user.value.role.Some?
    ensures requireAll ==>
              (r <==> user.Some? && user.value.role.Some? &&
                      forall id :: id in permissions ==> id in user.value.role.value.permissions)
    ensures !requireAll ==>
              (r <==> user.Some? && user.value.role.Some? &&
                      exists id :: id in permissions && id in user.value.role.value.permissions)
  {
    if requireAll then CheckAllPermissions(user, permissions) else CheckAnyPermission(user, permissions)
  }

  /** The guard: protected content on access, otherwise the fallback when
      one is given, otherwise the default alert. */
  function Guard(user: Option<UserWithRole>, requiredPermission: Option<string>,
                 requiredPermissions: seq<string>, requireAll: bool, hasFallback: bool): (r: Rendered)
    ensures r == Children <==>
              HasAccess(user, EffectiveList(requiredPermissions, requiredPermission), requireAll)
    ensures r == Fallback <==>
              !HasAccess(user, EffectiveList(requiredPermissions, requiredPermission), requireAll) && hasFallback
    ensures r == AccessDenied <==>
              !HasAccess(user, EffectiveList(requiredPermissions, requiredPermission), requireAll) && !hasFallback
  {
    var permissions := EffectiveList(requiredPermissions, requiredPermission);
    if HasAccess(user, permissions, requireAll) then Children
    else if hasFallback then Fallback
    else AccessDenied
  }

  /** Nobody logged in: the protected content is never shown. */
  lemma NoUserNeverGranted(requiredPermission: Option<string>, requiredPermissions: seq<string>,
                           requireAll: bool, hasFallback: bool)
    ensures Guard(None, requiredPermission, requiredPermissions, requireAll, hasFallback) != Children
  {
  }

  /** No permission named, any-of mode: always denied. */
  lemma NothingRequiredAnyDenied(user: Option<UserWithRole>, requiredPermission: Option<string>,
                                 hasFallback: bool)
    requires requiredPermission.None? || requiredPermission == Some("")
    ensures Guard(user, requiredPermission, [], false, hasFallback) != Children
  {
  }

  /** No permission named, all-of mode: granted exactly when a user with a
      role is logged in. */
  lemma NothingRequiredAllGranted(user: Option<UserWithRole>, requiredPermission: Option<string>,
                                  hasFallback: bool)
    requires requiredPermission.None? || requiredPermission == Some("")
    ensures Guard(user, requiredPermission, [], true, hasFallback) == Children <==>
              user.Some? && user.value.role.Some?
  {
  }

  /** The decision depends only on which ids are asked for: in particular it
      does not matter where the single permission sits in the list. */
  lemma AccessDependsOnMembers(user: Option<UserWithRole>, a: seq<string>, b: seq<string>, requireAll: bool)
    requires forall x :: x in a <==> x in b
    ensures HasAccess(user, a, requireAll) == HasAccess(user, b, requireAll)
  {
  }

  lemma SinglePermissionPosition(user: Option<UserWithRole>, p: string, ps: seq<string>, requireAll: bool)
    requires p != ""
    ensures HasAccess(user, EffectiveList(ps, Some(p)), requireAll) == HasAccess(user, [p] + ps, requireAll)
  {
    AccessDependsOnMembers(user, EffectiveList(ps, Some(p)), [p] + ps, requireAll);
  }

  /** Naming one more permission can only widen an any-of guard and only
      narrow an all-of guard. */
  lemma ExtraPermission(user: Option<UserWithRole>, p: string, ps: seq<string>)
    requires p != ""
    ensures HasAccess(user, ps, false) ==> HasAccess(user, EffectiveList(ps, Some(p)), false)
    ensures HasAccess(user, EffectiveList(ps, Some(p)), true) ==> HasAccess(user, ps, true)
  {
  }
}

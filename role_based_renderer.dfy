/**
 * `RoleBasedRenderer`: shows its children only to users holding the listed roles, either
 * any one of them or, with `requireAllRoles`, every one of them; otherwise the fallback.
 * The role hook's `hasRole` and `hasAnyRole` are not part of this model and are parameters.
 */
module RoleBasedRenderer {
  import opened Wrappers

  /** `allowedRoles.every(role => hasRole(role))`, one role at a time. */
  function Every(roles: seq<string>, hasRole: string -> bool): bool {
    if |roles| == 0 then true else hasRole(roles[0]) && Every(roles[1..], hasRole)
  }

  /** `every` holds exactly when each listed role is held. */
  lemma {:induction false} EveryMeansEachHeld(roles: seq<string>, hasRole: string -> bool)
    ensures Every(roles, hasRole) <==> forall i :: 0 <= i < |roles| ==> hasRole(roles[i])
  {
    if |roles| > 0 {
      EveryMeansEachHeld(roles[1..], hasRole);
      assert forall i :: 1 <= i < |roles| ==> roles[i] == roles[1..][i - 1];
    }
  }

  /** The memoised `hasAccess`. */
  function HasAccess(allowedRoles: seq<string>, requireAllRoles: bool,
                     hasRole: string -> bool, hasAnyRole: seq<string> -> bool): (access: bool)
    ensures |allowedRoles| == 0 ==> access
    ensures |allowedRoles| > 0 && !requireAllRoles ==> (access <==> hasAnyRole(allowedRoles))
  {
    if |allowedRoles| == 0 then true
    else if requireAllRoles then Every(allowedRoles, hasRole)
    else hasAnyRole(allowedRoles)
  }

  /** With `requireAllRoles`, a non-empty list grants access exactly when every listed role is held. */
  lemma RequireAllNeedsEveryRole(allowedRoles: seq<string>, hasRole: string -> bool, hasAnyRole: seq<string> -> bool)
    ensures HasAccess(allowedRoles, true, hasRole, hasAnyRole)
        <==> forall i :: 0 <= i < |allowedRoles| ==> hasRole(allowedRoles[i])
  {
    EveryMeansEachHeld(allowedRoles, hasRole);
  }

  /** `hasAnyRole` agrees with `hasRole`: some listed role is held. */
  ghost predicate AnyAgreesWithHas(hasRole: string -> bool, hasAnyRole: seq<string> -> bool) {
    forall roles: seq<string> :: hasAnyRole(roles) <==> exists i :: 0 <= i < |roles| && hasRole(roles[i])
  }

  /**
   * When `hasAnyRole` agrees with `hasRole`, requiring all roles is the stricter check: whoever
   * passes it also passes the any-role check on the same list.
   */
  lemma AllRolesImpliesAnyRole(allowedRoles: seq<string>, hasRole: string -> bool, hasAnyRole: seq<string> -> bool)
    requires AnyAgreesWithHas(hasRole, hasAnyRole)
    requires HasAccess(allowedRoles, true, hasRole, hasAnyRole)
    ensures HasAccess(allowedRoles, false, hasRole, hasAnyRole)
  {
    if |allowedRoles| > 0 {
      RequireAllNeedsEveryRole(allowedRoles, hasRole, hasAnyRole);
      assert hasRole(allowedRoles[0]);
    }
  }

  /** The rendered output: the children when access holds, otherwise the fallback (`None` is `null`). */
  function Render<T>(children: T, allowedRoles: seq<string>, requireAllRoles: bool, fallback: Option<T>,
                     hasRole: string -> bool, hasAnyRole: seq<string> -> bool): (shown: Option<T>)
    ensures shown == Some(children) <==> HasAccess(allowedRoles, requireAllRoles, hasRole, hasAnyRole) || fallback == Some(children)
    ensures !HasAccess(allowedRoles, requireAllRoles, hasRole, hasAnyRole) ==> shown == fallback
  {
    if HasAccess(allowedRoles, requireAllRoles, hasRole, hasAnyRole) then Some(children) else fallback
  }

  /** With every prop left at its default (`[]`, `false`, `null`), the children are always shown. */
  lemma DefaultsShowChildren<T>(children: T, hasRole: string -> bool, hasAnyRole: seq<string> -> bool)
    ensures Render(children, [], false, None, hasRole, hasAnyRole) == Some(children)
  {
  }

  /** A user denied access sees nothing when no fallback is given. */
  lemma DeniedWithoutFallbackShowsNothing<T>(children: T, allowedRoles: seq<string>, requireAllRoles: bool,
                                             hasRole: string -> bool, hasAnyRole: seq<string> -> bool)
    requires !HasAccess(allowedRoles, requireAllRoles, hasRole, hasAnyRole)
    ensures Render(children, allowedRoles, requireAllRoles, None, hasRole, hasAnyRole).None?
  {
  }
}

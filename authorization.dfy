/** AuthorizationUtil: guards that return normally or deny with Forbidden.
    They read nothing but their arguments and change nothing. */
module Authorization {
  import opened Errors
  import opened Roles

  /** `checkAdminAccess`; the operation name only shapes the message. */
  function CheckAdminAccess(userRole: Role, operation: string): (r: Outcome)
    ensures r.Pass? <==> userRole == ADMIN
    ensures r.Fail? ==> r.error == Forbidden
  {
    if userRole != ADMIN then Fail(Forbidden) else Pass
  }

  /** `checkRoleAccess`: the search over the varargs array, returning at the
      first role equal to `userRole`. */
  function CheckRoleAccess(userRole: Role, requiredRoles: seq<Role>): (r: Outcome)
    ensures r.Pass? <==> userRole in requiredRoles
    ensures r.Fail? ==> r.error == Forbidden
  {
    if requiredRoles == [] then Fail(Forbidden)
    else if userRole == requiredRoles[0] then Pass
    else CheckRoleAccess(userRole, requiredRoles[1..])
  }

  /** The loop of `checkRoleAccess` itself: it scans the roles in order and
      returns at the first match; running off the end denies. */
  method ScanRequiredRoles(userRole: Role, requiredRoles: seq<Role>) returns (r: Outcome)
    ensures r == CheckRoleAccess(userRole, requiredRoles)
  {
    for i := 0 to |requiredRoles|
      invariant CheckRoleAccess(userRole, requiredRoles) == CheckRoleAccess(userRole, requiredRoles[i..])
    {
      assert requiredRoles[i..][1..] == requiredRoles[i + 1..];
      if userRole == requiredRoles[i] {
        return Pass;
      }
    }
    return Fail(Forbidden);
  }

  /** `checkUserOrAdmin`. */
  function CheckUserOrAdmin(userRole: Role, userId: int, requestedUserId: int): (r: Outcome)
    ensures r.Pass? <==> userId == requestedUserId || userRole == ADMIN
    ensures r.Fail? ==> r.error == Forbidden
  {
    if userId != requestedUserId && userRole != ADMIN then Fail(Forbidden) else Pass
  }

  /** Guards that cannot deny: a user asking for their own data, and a role
      required to be itself. An empty list of roles always denies. */
  lemma TrivialGuards(userRole: Role, userId: int)
    ensures CheckUserOrAdmin(userRole, userId, userId) == Pass
    ensures CheckRoleAccess(userRole, [userRole]) == Pass
    ensures CheckRoleAccess(userRole, []) == Fail(Forbidden)
  {
  }
}

/**
 * The route guard of the admin and student areas: without a token the user
 * is sent to the login page; with one, the route opens when it asks for no
 * role or when the user holds one of the roles it asks for, and otherwise
 * the user is sent to the start page.
 */
module RoleGuard {
  import opened Common
  import opened LoginService

  /** The guard's answer and where it navigates, if anywhere. */
  datatype GuardResult = GuardResult(allowed: bool, redirect: Option<string>)

  const LoginPath: string := "/login"
  const StartPath: string := "/"

  /** The roles the admin and student areas ask for in their route data. */
  const AdminRouteRoles: seq<string> := ["Admin"]
  const StudentRouteRoles: seq<string> := ["Student"]

  /** Some required role is among the user's roles. */
  predicate HoldsSomeRole(required: seq<string>, userRoles: seq<string>) {
    exists i :: 0 <= i < |required| && required[i] in userRoles
  }

  /**
   * `canActivate` for the stored `token` and the route's `roles` data
   * (missing data asks for no role).  The route opens exactly when there is
   * a token and the route asks for no role or for one the user holds; a
   * refusal without a token goes to the login page, any other refusal to
   * the start page.
   */
  function CanActivate(token: Option<string>, decode: string -> Option<Claims>, routeRoles: Option<seq<string>>): (r: GuardResult)
    ensures r.allowed <==> Truthy(token) && (routeRoles.None? || routeRoles.value == [] || HoldsSomeRole(routeRoles.value, RolesOf(token, decode)))
    ensures r.allowed <==> r.redirect.None?
    ensures !Truthy(token) ==> r.redirect == Some(LoginPath)
    ensures Truthy(token) && !r.allowed ==> r.redirect == Some(StartPath)
  {
    if !Truthy(token) then GuardResult(false, Some(LoginPath))
    else
      var userRoles := RolesOf(token, decode);
      var required := routeRoles.GetOr([]);
      if |required| == 0 || HoldsSomeRole(required, userRoles) then GuardResult(true, None)
      else GuardResult(false, Some(StartPath))
  }

  /** The admin area opens exactly for a stored token whose roles include `Admin`. */
  lemma AdminAreaNeedsAdmin(token: Option<string>, decode: string -> Option<Claims>)
    ensures CanActivate(token, decode, Some(AdminRouteRoles)).allowed <==> Truthy(token) && "Admin" in RolesOf(token, decode)
  {
    if Truthy(token) && "Admin" in RolesOf(token, decode) {
      assert AdminRouteRoles[0] in RolesOf(token, decode);
    }
  }

  /** The student area opens exactly for a stored token whose roles include `Student`. */
  lemma StudentAreaNeedsStudent(token: Option<string>, decode: string -> Option<Claims>)
    ensures CanActivate(token, decode, Some(StudentRouteRoles)).allowed <==> Truthy(token) && "Student" in RolesOf(token, decode)
  {
    if Truthy(token) && "Student" in RolesOf(token, decode) {
      assert StudentRouteRoles[0] in RolesOf(token, decode);
    }
  }

  /** After logout every guarded route sends the user to the login page. */
  method GuardAfterLogout(store: TokenStore, decode: string -> Option<Claims>, routeRoles: Option<seq<string>>) returns (r: GuardResult)
    modifies store
    ensures r == GuardResult(false, Some(LoginPath))
  {
    store.Logout();
    r := CanActivate(store.GetToken(), decode, routeRoles);
  }
}

/** The guard in front of the owner and staff areas. */
module RouteGuard {
  import opened Wrappers
  import opened Auth

  datatype Role = Owner | Staff

  function RoleName(r: Role): string {
    match r
    case Owner => "owner"
    case Staff => "staff"
  }

  /** What the guard renders. */
  datatype View = LoadingView | Redirect(path: string) | Outlet

  /**
   * The guard: wait while loading, send a visitor to the login page, send a signed-in user of the
   * other known role to their own home, and render the page otherwise.
   */
  function Guard(isLoading: bool, user: Option<User>, allowedRole: Option<Role>): (v: View)
    ensures isLoading ==> v == LoadingView
    ensures !isLoading && user.None? ==> v == Redirect("/login")
    ensures v == Redirect("/owner") <==>
      !isLoading && user.Some? && allowedRole == Some(Staff) && user.value.role == "owner"
    ensures v == Redirect("/staff") <==>
      !isLoading && user.Some? && allowedRole == Some(Owner) && user.value.role == "staff"
  {
    if isLoading then LoadingView
    else if user.None? then Redirect("/login")
    else if allowedRole.Some? && user.value.role != RoleName(allowedRole.value) then
      if user.value.role == "owner" then Redirect("/owner")
      else if user.value.role == "staff" then Redirect("/staff")
      else Outlet
    else Outlet
  }

  /** For a user with one of the two roles, the page renders exactly when no role is required or the roles match. */
  lemma OutletIffAllowed(isLoading: bool, user: Option<User>, allowedRole: Option<Role>)
    requires user.Some? ==> user.value.role == "owner" || user.value.role == "staff"
    ensures Guard(isLoading, user, allowedRole) == Outlet <==>
      !isLoading && user.Some? && (allowedRole.None? || user.value.role == RoleName(allowedRole.value))
  {
  }

  /** A user whose stored role is neither "owner" nor "staff" is let through to any area. */
  lemma UnknownRolePassesGuard(u: User, allowedRole: Role)
    requires u.role != "owner" && u.role != "staff"
    ensures Guard(false, Some(u), Some(allowedRole)) == Outlet
  {
  }
}

/** The top bar (src/components/Navbar.tsx). */
module Navbar {
  import opened Common
  import opened AuthContext
  import ProtectedRoute

  /** The Dashboard button's target: the company dashboard for a company
      owner, the investor dashboard for anyone else. */
  function DashboardTarget(userType: Option<string>): (path: string)
    ensures path == ProtectedRoute.CompanyHome <==> userType == Some("company")
    ensures path == ProtectedRoute.InvestorHome <==> userType != Some("company")
  {
    if userType == Some("company") then ProtectedRoute.CompanyHome else ProtectedRoute.InvestorHome
  }

  datatype Icon = BuildingIcon | UsersIcon

  /** The icon beside the welcome text. */
  function RoleIcon(userType: Option<string>): (icon: Icon)
    ensures icon == BuildingIcon <==> userType == Some("company")
  {
    if userType == Some("company") then BuildingIcon else UsersIcon
  }

  datatype MenuItem =
    | Welcome(name: Option<string>, icon: Icon)
    | DashboardButton(target: string)
    | LogoutButton
    | LoginLink
    | RegisterLink

  /** The right-hand menu: welcome, Dashboard and Logout when authenticated;
      the Login and Register links otherwise. */
  function Menu(isAuthenticated: bool, user: Option<User>): (items: seq<MenuItem>)
    ensures isAuthenticated ==> |items| == 3 && items[0].Welcome? && items[1].DashboardButton? && items[2] == LogoutButton
    ensures !isAuthenticated <==> items == [LoginLink, RegisterLink]
    ensures isAuthenticated ==> items[1].target == DashboardTarget(UserTypeOf(user))
    ensures isAuthenticated ==> items[0].icon == RoleIcon(UserTypeOf(user))
  {
    if isAuthenticated then
      var name := if user.Some? then Some(user.value.name) else None;
      [Welcome(name, RoleIcon(UserTypeOf(user))), DashboardButton(DashboardTarget(UserTypeOf(user))), LogoutButton]
    else [LoginLink, RegisterLink]
  }

  /** `handleLogout`: log out, then go to the landing page. */
  method HandleLogout(auth: AuthProvider) returns (navigateTo: string)
    modifies auth
    ensures auth.State() == LogoutStep(old(auth.State()))
    ensures navigateTo == "/"
  {
    auth.Logout();
    navigateTo := "/";
  }
}

/** The guard around the two dashboards (src/components/ProtectedRoute.tsx):
    its effect decides where to navigate, its render decides what to show. */
module ProtectedRoute {
  import opened Common

  const LoginPath := "/login"
  const CompanyHome := "/company-dashboard"
  const InvestorHome := "/investor-dashboard"

  /** Where a signed-in user whose role does not fit is sent, chosen by `user?.type`. */
  function RoleHome(userType: Option<string>): (path: string)
    ensures path == CompanyHome <==> userType == Some("company")
    ensures path == InvestorHome <==> userType == Some("investor")
    ensures path == LoginPath <==> userType != Some("company") && userType != Some("investor")
  {
    if userType == Some("company") then CompanyHome
    else if userType == Some("investor") then InvestorHome
    else LoginPath
  }

  /** The `userType` prop is truthy: given and not empty. */
  predicate RoleRequired(required: Option<string>) {
    required.Some? && required.value != ""
  }

  /** The effect's navigation: none while loading; to the login page when not
      authenticated; to the user's own home when a role is required and theirs
      differs (`user?.type !== userType`); otherwise none. */
  function Redirect(loading: bool, isAuthenticated: bool, userType: Option<string>, required: Option<string>): Option<string>
  {
    if !loading && !isAuthenticated then Some(LoginPath)
    else if !loading && isAuthenticated && RoleRequired(required) && userType != Some(required.value) then
      Some(RoleHome(userType))
    else None
  }

  datatype View = Spinner | Children | Blank

  /** The render: a loading screen, the protected page, or nothing. */
  function Render(loading: bool, isAuthenticated: bool): View {
    if loading then Spinner else if isAuthenticated then Children else Blank
  }

  /** The guard's decision, case by case. */
  lemma RedirectCases(loading: bool, isAuthenticated: bool, userType: Option<string>, required: Option<string>)
    ensures loading ==> Redirect(loading, isAuthenticated, userType, required) == None
    ensures !loading && !isAuthenticated ==> Redirect(loading, isAuthenticated, userType, required) == Some(LoginPath)
    ensures !loading && isAuthenticated && RoleRequired(required) && userType != Some(required.value)
      ==> Redirect(loading, isAuthenticated, userType, required) == Some(RoleHome(userType))
    ensures !loading && isAuthenticated && (!RoleRequired(required) || userType == Some(required.value))
      ==> Redirect(loading, isAuthenticated, userType, required) == None
  {
  }

  /** While loading nothing is decided: no navigation and only the loading screen. */
  lemma WaitsWhileLoading(isAuthenticated: bool, userType: Option<string>, required: Option<string>)
    ensures Redirect(true, isAuthenticated, userType, required) == None
    ensures Render(true, isAuthenticated) == Spinner
  {
  }

  /** The render ignores the role: a signed-in user whose role does not fit sees
      the protected page while the redirect is issued. Children are shown exactly
      when loading is over and the user is authenticated. */
  lemma RenderIgnoresRole(loading: bool, isAuthenticated: bool, userType: Option<string>, required: Option<string>)
    ensures Render(loading, isAuthenticated) == Children <==> !loading && isAuthenticated
    ensures !loading && isAuthenticated && Redirect(loading, isAuthenticated, userType, required).Some?
      ==> Render(loading, isAuthenticated) == Children
  {
  }
}

/** The route table (src/App.tsx) and the navigation the mounted page issues:
    the guard's effect on the two dashboards and the sign-in page's redirect
    of a user who is already signed in. Every navigation a page decides on is
    taken to happen; the router's rule that drops a `navigate()` made during a
    component's first render is not modelled. */
module AppRoutes {
  import opened Common
  import opened AuthContext
  import opened ProtectedRoute
  import LoginPage
  import Navbar
  import DashboardSidebar

  datatype Page = Landing | SignIn | SignUp | Guarded(required: string) | NotFound

  /** The page the router mounts for a path: "/" is the landing page, /register
      the sign-up page, /login the sign-in page, the two dashboards sit behind
      the guard with the role each requires, and every other path, compared
      exactly, is not found. */
  function PageAt(path: string): (page: Page)
    ensures page == Guarded("company") <==> path == ProtectedRoute.CompanyHome
    ensures page == Guarded("investor") <==> path == ProtectedRoute.InvestorHome
    ensures page.Guarded? ==> page.required == "company" || page.required == "investor"
    ensures page == SignIn <==> path == ProtectedRoute.LoginPath
    ensures page == Landing <==> path == "/"
    ensures page == SignUp <==> path == "/register"
    ensures page == NotFound <==> path !in {"/", LoginPath, "/register", CompanyHome, InvestorHome}
  {
    if path == "/" then Landing
    else if path == LoginPath then SignIn
    else if path == "/register" then SignUp
    else if path == CompanyHome then Guarded("company")
    else if path == InvestorHome then Guarded("investor")
    else NotFound
  }

  /** The sign-in page's redirect as it should be: a signed-in user with a
      known role goes to that role's dashboard; anyone else stays. */
  function LoginRedirect(isAuthenticated: bool, userType: Option<string>): (target: Option<string>)
    ensures target.Some? <==> isAuthenticated && (userType == Some("company") || userType == Some("investor"))
    ensures target.Some? ==> target.value == ProtectedRoute.RoleHome(userType)
    ensures target.Some? ==> PageAt(target.value) == Guarded(userType.value)
  {
    if isAuthenticated && (userType == Some("company") || userType == Some("investor")) then
      Some(ProtectedRoute.RoleHome(userType))
    else None
  }

  datatype Version = AsWritten | Corrected

  /** The navigation the page at `path` issues for the session, if any. */
  function Next(path: string, s: Session, version: Version): Option<string> {
    match PageAt(path)
    case SignIn =>
      if version == AsWritten then LoginPage.AuthenticatedRedirect(s.isAuthenticated)
      else LoginRedirect(s.isAuthenticated, UserTypeOf(s.user))
    case Guarded(required) =>
      ProtectedRoute.Redirect(s.loading, s.isAuthenticated, UserTypeOf(s.user), Some(required))
    case _ => None
  }

  /** The path reached after following at most `n` navigations. */
  function Follow(path: string, s: Session, version: Version, n: nat): string
    decreases n
  {
    if n == 0 then path
    else match Next(path, s, version)
      case None => path
      case Some(target) => Follow(target, s, version, n - 1)
  }

  predicate Settled(path: string, s: Session, version: Version) {
    Next(path, s, version).None?
  }

  /** A session whose user has role `userType` and whose restore has finished. */
  predicate SignedInAs(s: Session, userType: string) {
    !s.loading && s.isAuthenticated && UserTypeOf(s.user) == Some(userType)
  }

  /** The guard's home for a known role is the route that requires exactly
      that role, where a user of that role settles; for any other role it is
      the sign-in page. */
  lemma RoleHomeAdmits(userType: string, s: Session, version: Version)
    ensures userType == "company" || userType == "investor" ==>
      && PageAt(RoleHome(Some(userType))) == Guarded(userType)
      && (SignedInAs(s, userType) ==> Settled(RoleHome(Some(userType)), s, version))
    ensures userType != "company" && userType != "investor" ==> PageAt(RoleHome(Some(userType))) == SignIn
  {
  }

  /** As written, an investor on the sign-in page is sent to the company
      dashboard first, and only that page's guard sends it home. */
  lemma AsWrittenInvestorDetour(s: Session)
    requires SignedInAs(s, "investor")
    ensures Next(LoginPath, s, AsWritten) == Some(CompanyHome)
    ensures Next(CompanyHome, s, AsWritten) == Some(InvestorHome)
    ensures Settled(InvestorHome, s, AsWritten)
  {
  }

  /** As written, a user of either known role settles within two navigations,
      wherever it starts. */
  lemma AsWrittenKnownRolesSettle(path: string, s: Session)
    requires SignedInAs(s, "company") || SignedInAs(s, "investor")
    ensures Settled(Follow(path, s, AsWritten, 2), s, AsWritten)
  {
    var home := ProtectedRoute.RoleHome(UserTypeOf(s.user));
    assert Settled(home, s, AsWritten);
    assert Next(CompanyHome, s, AsWritten) == None || Next(CompanyHome, s, AsWritten) == Some(home);
    if path == LoginPath {
      assert Next(path, s, AsWritten) == Some(CompanyHome);
      assert Follow(path, s, AsWritten, 2) == Follow(CompanyHome, s, AsWritten, 1);
    } else if PageAt(path).Guarded? {
      assert Next(path, s, AsWritten) == None || Next(path, s, AsWritten) == Some(home);
    } else {
      assert Settled(path, s, AsWritten);
    }
  }

  /** As written, for a signed-in user of any other role the two pages' decisions
      alternate: the sign-in page always asks for the company dashboard, and its
      guard always asks for the sign-in page, so following them never settles.
      In the running app the sign-in page's first-render `navigate()` may be
      dropped, which would leave the user on the sign-in page instead. */
  lemma {:induction false} AsWrittenUnknownRoleLoops(s: Session, n: nat)
    requires !s.loading && s.isAuthenticated
    requires UserTypeOf(s.user) != Some("company") && UserTypeOf(s.user) != Some("investor")
    ensures Follow(LoginPath, s, AsWritten, n) in {LoginPath, CompanyHome}
    ensures !Settled(Follow(LoginPath, s, AsWritten, n), s, AsWritten)
  {
    assert Next(LoginPath, s, AsWritten) == Some(CompanyHome);
    assert Next(CompanyHome, s, AsWritten) == Some(LoginPath);
    if n > 0 {
      AsWrittenUnknownRoleLoops(s, n - 1);
      CompanyDashboardLoops(s, n - 1);
    }
  }

  lemma {:induction false} CompanyDashboardLoops(s: Session, n: nat)
    requires !s.loading && s.isAuthenticated
    requires UserTypeOf(s.user) != Some("company") && UserTypeOf(s.user) != Some("investor")
    ensures Follow(CompanyHome, s, AsWritten, n) in {LoginPath, CompanyHome}
  {
    assert Next(LoginPath, s, AsWritten) == Some(CompanyHome);
    assert Next(CompanyHome, s, AsWritten) == Some(LoginPath);
    if n > 0 {
      AsWrittenUnknownRoleLoops(s, n - 1);
    }
  }

  /** With the corrected redirect every page settles after at most one
      navigation, for every session. */
  lemma CorrectedSettles(path: string, s: Session)
    ensures Settled(Follow(path, s, Corrected, 1), s, Corrected)
  {
    match Next(path, s, Corrected)
    case None =>
    case Some(target) =>
      assert Follow(path, s, Corrected, 1) == target;
      if PageAt(path) == SignIn {
        assert PageAt(target).Guarded?;
      } else {
        assert PageAt(path).Guarded?;
        assert target == ProtectedRoute.LoginPath || target == ProtectedRoute.RoleHome(UserTypeOf(s.user));
      }
  }

  /** The corrected redirect agrees with the written one for a company owner
      and differs only by skipping the detour for an investor. */
  lemma CorrectedAgrees(s: Session)
    requires SignedInAs(s, "company") || SignedInAs(s, "investor")
    ensures Follow(LoginPath, s, Corrected, 1) == Follow(LoginPath, s, AsWritten, 2)
  {
    var home := ProtectedRoute.RoleHome(UserTypeOf(s.user));
    assert Next(LoginPath, s, Corrected) == Some(home);
    assert Next(LoginPath, s, AsWritten) == Some(CompanyHome);
    assert Settled(home, s, AsWritten);
    assert Follow(CompanyHome, s, AsWritten, 1) == home;
  }

  /** A stored session that is not valid JSON makes the restore throw before
      loading ends: the restore changes nothing, so the dashboards show the
      loading screen and never redirect. */
  lemma MalformedSlotBlocksDashboards(raw: string, version: Version, required: string)
    requires raw != ""
    ensures var s := RestoreStep(Fresh(Some(Unparseable(raw))));
      && s == Fresh(Some(Unparseable(raw)))
      && Next(if required == "company" then CompanyHome else InvestorHome, s, version) == None
      && ProtectedRoute.Render(s.loading, s.isAuthenticated) == ProtectedRoute.Spinner
  {
  }

  /** The top bar's Dashboard button is the guard's home for the signed-in role
      exactly when the role is a known one; for any other role the button opens
      the investor dashboard, whose guard sends the user to the sign-in page. */
  lemma NavbarAgreesWithGuard(userType: string)
    ensures Navbar.DashboardTarget(Some(userType)) == ProtectedRoute.RoleHome(Some(userType))
      <==> userType == "company" || userType == "investor"
    ensures userType != "company" && userType != "investor" ==>
      ProtectedRoute.Redirect(false, true, Some(userType), Some("investor")) == Some(ProtectedRoute.LoginPath)
  {
  }

  /** The side menu's first link is the top bar's Dashboard target, and every
      other link of either menu leads to a path the router does not know. */
  lemma SidebarLinks(userType: Option<string>)
    ensures DashboardSidebar.Navigation(userType)[0].href == Navbar.DashboardTarget(userType)
    ensures forall i :: 1 <= i < 6 ==> PageAt(DashboardSidebar.Navigation(userType)[i].href) == NotFound
  {
    var items := DashboardSidebar.Navigation(userType);
    forall i | 1 <= i < 6
      ensures PageAt(items[i].href) == NotFound
    {
      var p := DashboardSidebar.RolePrefix(userType);
      assert p <= items[i].href;
      assert items[i].href != items[0].href;
    }
  }
}

# DealFlow (sellingsourcehub) in Dafny

DealFlow is a marketplace where company owners list businesses for sale and
private-equity investors browse them. It has a React front end and a small
Flask service. This project models the parts of both that decide something:

- **The session** (`AuthContext`). This covers the `AuthProvider` and its `user`,
  `isAuthenticated` and `loading` state, plus the `"user"` slot of local storage.
  Its operations are the restore on mount, login against the two-row credential
  fixture with the endpoint as fallback, and logout. The provider is a class.
  Each method is proved equal to a transition function on a `Session` value, and
  the lemmas about those functions carry the properties.
- **The route guard** (`ProtectedRoute`). Its effect decides where to navigate,
  and its render decides what to show.
- **The route table** (`AppRoutes`). It covers the pages the router mounts and
  the navigation each page issues for a session. With it, the guard and the
  sign-in page's redirect can be followed together.
- **The two forms** (`LoginPage`, `RegisterPage`). These are the ordered
  validation chains, the field updates and the submit handlers, as classes over
  the form state.
- **The top bar and the side menu** (`Navbar`, `DashboardSidebar`). These are
  the role-based choices of targets, links, icons and labels.
- **The dashboards** (`CompanyDashboard`, `InvestorDashboard`). These are the
  summary cards (a `reduce` fold and `filter(...).length` counts), the grid cell
  formatters, the match-score style and the pie slice colours. They are evaluated
  on the fixture data of `mockData.ts` (`MockData`).
- **The Flask service** (`Backend`). A `Database` class holds the `users` and
  `companies` tables as sequences of rows, and its methods are `login`,
  `register`, `get_companies`, `get_company` and `create_company`.

`NumberFormat` models what the formatters print for integers: JavaScript's
`String(n)` and en-US `toLocaleString` digit grouping, as they print integers
below 10^21 in magnitude that a double holds exactly. Parsers are proved to read
each back.
`Common` holds the `Option` type.

A malformed stored session is not treated as no session. `JSON.parse`
(src/contexts/AuthContext.tsx:58) throws on text that is not JSON, before
`setLoading(false)` (src/contexts/AuthContext.tsx:61) runs. So `loading` stays
true and the guarded pages show their loading screen for good
(`AuthContext.RestoreOutcomes`, `AppRoutes.MalformedSlotBlocksDashboards`).

## Model

| member | source | states |
|---|---|---|
| NumberFormat.DigitsRoundTrip | src/pages/InvestorDashboard.tsx:40 | The decimal digits printed for a natural number read back to that number. |
| NumberFormat.DigitsShape | src/pages/InvestorDashboard.tsx:40 | The decimal form of a natural number is non-empty, made only of digits, with no leading zero for n > 0. |
| NumberFormat.IntStringRoundTrip | src/pages/InvestorDashboard.tsx:40 | The decimal form of any integer, sign included, reads back to n. |
| NumberFormat.GroupedDigits | src/pages/CompanyDashboard.tsx:29 | Digit grouping only inserts commas: removing them gives `String(n)`. |
| NumberFormat.LocaleRoundTrip | src/pages/CompanyDashboard.tsx:29 | The en-US grouped form of any integer reads back to the integer. |
| NumberFormat.CurrencyLabel | src/pages/CompanyDashboard.tsx:28-30 | The money cell is empty exactly for 0. Otherwise it is "$" followed by text that reads back to the amount. |
| MockData.PieSeriesArePercentages | src/data/mockData.ts:133-156 | The inquiry-by-industry, deals-by-industry and deals-by-size series each add up to 100. |
| MockData.FixtureIdsDistinct | src/data/mockData.ts:3-113 | Listing ids are pairwise distinct, and so are opportunity ids. |
| MockData.FixtureTrends | src/data/mockData.ts:115-163 | The views and inquiries trends cover the same six months, with inquiries never above views. No pipeline quarter closes more deals than it opens. |
| MockData.FixtureValuesNonZero | src/data/mockData.ts:52-113 | No fixture match score, revenue or asking price is 0, so no cell prints empty. |
| CompanyDashboard.ReduceIsSum | src/pages/CompanyDashboard.tsx:76-77 | The `reduce` fold from any start equals the start plus the sum of every listing's count. |
| CompanyDashboard.ReduceAppend | src/pages/CompanyDashboard.tsx:76-77 | Folding one more listing adds exactly that listing's count. |
| CompanyDashboard.TotalsAppend | src/pages/CompanyDashboard.tsx:76-78 | Appending a listing raises total views, total inquiries and the listing count by exactly its views, its inquiries and 1. |
| CompanyDashboard.SumDominates | src/pages/CompanyDashboard.tsx:76-77 | The sum of non-negative counts is at least each single count. |
| CompanyDashboard.TotalsDominate | src/pages/CompanyDashboard.tsx:76-77 | Each total is at least any single listing's views or inquiries. |
| CompanyDashboard.FixtureTotals | src/data/mockData.ts:3-49 | On the fixture, the cards read 3 listings, 97 views and 15 inquiries. |
| CompanyDashboard.FixtureCurrencyCells | src/pages/CompanyDashboard.tsx:28-40 | Every fixture listing's revenue and asking-price cells are non-empty and read back to the amounts. |
| CompanyDashboard.SliceColor | src/pages/CompanyDashboard.tsx:196 | A slice's fill is always one of the four palette colours. |
| CompanyDashboard.SliceColorsDiffer | src/pages/CompanyDashboard.tsx:47 | Any four consecutive slices get four different colours. |
| CompanyDashboard.SliceColorCycle | src/pages/CompanyDashboard.tsx:196 | Colours repeat with period 4. |
| InvestorDashboard.PercentLabel | src/pages/InvestorDashboard.tsx:39-41 | The percent cell is empty exactly for 0. Otherwise it ends in "%" and the rest reads back to the value. |
| InvestorDashboard.MatchStyle | src/pages/InvestorDashboard.tsx:52-57 | Green exactly when the score is at least 90, blue exactly for 80 to 89, grey exactly below 80; bold exactly from 80. |
| InvestorDashboard.CountWhere | src/pages/InvestorDashboard.tsx:92-93 | A filtered count is at most the row count, and equals it exactly when every row passes. |
| InvestorDashboard.CountComplement | src/pages/InvestorDashboard.tsx:93 | Counts under a filter and under its negation add up to the row count. |
| InvestorDashboard.CountSame | src/pages/InvestorDashboard.tsx:92 | Filters that agree on every row give the same count. |
| InvestorDashboard.InProgressPlusNew | src/pages/InvestorDashboard.tsx:91-93 | In-progress deals plus "New Listing" rows equal the total. |
| InvestorDashboard.HighMatchIsGreen | src/pages/InvestorDashboard.tsx:92 | The high-match card counts exactly the rows whose score is painted green, and is at most the total. |
| InvestorDashboard.FixtureStats | src/data/mockData.ts:52-113 | On the fixture, the cards read 5 opportunities, 2 high matches and 2 in progress. |
| InvestorDashboard.FixtureLabels | src/pages/InvestorDashboard.tsx:29-51 | Every fixture row gets a non-empty match label and a non-empty revenue label. |
| InvestorDashboard.SliceColor | src/pages/InvestorDashboard.tsx:184 | A slice's fill is always one of the five palette colours. |
| InvestorDashboard.SliceColorsDiffer | src/pages/InvestorDashboard.tsx:62 | Any five consecutive slices get five different colours. |
| InvestorDashboard.SliceColorCycle | src/pages/InvestorDashboard.tsx:184 | Colours repeat with period 5. |
| AuthContext.FindMock | src/contexts/AuthContext.tsx:70-72 | A found row is in the fixture and matches both username and password. None means no row matches. |
| AuthContext.FindMockIsFirst | src/contexts/AuthContext.tsx:70-72 | The row found is the first matching one. |
| AuthContext.MockUsersFixture | src/contexts/AuthContext.tsx:6-23 | Fixture usernames are distinct. muser/muser finds the company owner, and mpe/mpe finds the investor. |
| AuthContext.MockMatchIff | src/contexts/AuthContext.tsx:70-74 | The local check passes exactly for the pairs muser/muser and mpe/mpe. |
| AuthContext.ConsistencyPreserved | src/contexts/AuthContext.tsx:49-167 | Mount, restore, login and logout all keep `isAuthenticated` true exactly when there is a user. |
| AuthContext.RestoreOutcomes | src/contexts/AuthContext.tsx:54-62 | A stored record is signed in and loading ends. An absent or empty slot ends loading with no user. Unparseable text leaves loading true, and restoring again changes nothing. |
| AuthContext.MockLoginSignsIn | src/contexts/AuthContext.tsx:74-84 | A fixture match succeeds whatever the endpoint says. The user and the stored slot are the row minus its password. |
| AuthContext.LoginOkIff | src/contexts/AuthContext.tsx:68-125 | Login succeeds exactly when a fixture row matches or the endpoint accepts. A failed login changes no state. |
| AuthContext.LogoutIdempotent | src/contexts/AuthContext.tsx:164-167 | Logout clears user, flag and slot, and doing it twice equals doing it once. |
| AuthContext.SessionSurvivesReload | src/contexts/AuthContext.tsx:54-100 | After a successful login, a new provider restoring from the slot signs in the same user. After logout it finds nobody. |
| AuthContext.AuthProvider.constructor | src/contexts/AuthContext.tsx:49-51 | A new provider has no user, is not authenticated and is loading. |
| AuthContext.AuthProvider.CheckSession | src/contexts/AuthContext.tsx:54-62 | The new state is the restore step of the old one. |
| AuthContext.AuthProvider.Login | src/contexts/AuthContext.tsx:68-126 | The result and new state are the login step of the old state. |
| AuthContext.AuthProvider.Logout | src/contexts/AuthContext.tsx:164-172 | The new state is the logout step of the old one. |
| ProtectedRoute.RoleHome | src/components/ProtectedRoute.tsx:23-29 | "company" goes to the company dashboard, "investor" to the investor dashboard, and any other role or no user to /login. |
| ProtectedRoute.RedirectCases | src/components/ProtectedRoute.tsx:18-31 | No navigation while loading. /login when not authenticated. The role's home when a required role differs. Otherwise none. |
| ProtectedRoute.WaitsWhileLoading | src/components/ProtectedRoute.tsx:18-35 | While loading there is no redirect and only the loading screen. |
| ProtectedRoute.RenderIgnoresRole | src/components/ProtectedRoute.tsx:33-37 | Children render exactly when not loading and authenticated, even while a role redirect is issued. |
| LoginPage.Validate | src/pages/LoginPage.tsx:31-35 | No error exactly when both fields are non-empty; the error is the required-fields message. |
| LoginPage.AuthenticatedRedirect | src/pages/LoginPage.tsx:22-24 | A redirect is issued exactly when authenticated, and it is always /company-dashboard. |
| LoginPage.LoginForm.constructor | src/pages/LoginPage.tsx:14-17 | Both inputs are empty, not loading, no error. |
| LoginPage.LoginForm.SetUsername | src/pages/LoginPage.tsx:65 | Only the username changes. |
| LoginPage.LoginForm.SetPassword | src/pages/LoginPage.tsx:76 | Only the password changes. |
| LoginPage.LoginForm.HandleSubmit | src/pages/LoginPage.tsx:26-43 | Login is called exactly when both fields are non-empty, with exactly what was typed. The error is cleared or set to the required-fields message, and loading ends false. The provider moves by the login step, or not at all. |
| RegisterPage.WithField | src/pages/RegisterPage.tsx:28-31 | The named field takes the value; every other field and the type are unchanged. |
| RegisterPage.WithType | src/pages/RegisterPage.tsx:33-35 | The type takes the value; every text field is unchanged. |
| RegisterPage.InitialFormEmpty | src/pages/RegisterPage.tsx:15-22 | Every text field starts empty and the type starts as "company". |
| RegisterPage.Validate | src/pages/RegisterPage.tsx:43-59 | Each message appears exactly when its check is the first to fail, in the order required fields, match, length. No error exactly when all pass. |
| RegisterPage.AcceptedFormComplete | src/pages/RegisterPage.tsx:43-59 | A form that passes has every text field non-empty. |
| RegisterPage.RegisterForm.constructor | src/pages/RegisterPage.tsx:15-24 | The form starts as the initial form, not loading, with no error. |
| RegisterPage.RegisterForm.HandleChange | src/pages/RegisterPage.tsx:28-31 | The form becomes the one-field update of the old form. |
| RegisterPage.RegisterForm.HandleTypeChange | src/pages/RegisterPage.tsx:33-35 | The form becomes the type update of the old form. |
| RegisterPage.RegisterForm.HandleSubmit | src/pages/RegisterPage.tsx:37-67 | Register is called exactly when validation passes, and the error is the first failing message or empty. Loading ends false and the form is untouched. A successful registration navigates to /login. |
| Navbar.DashboardTarget | src/components/Navbar.tsx:37-43 | The company dashboard exactly for "company"; the investor dashboard for every other role. |
| Navbar.RoleIcon | src/components/Navbar.tsx:28-32 | The building icon exactly for "company". |
| Navbar.Menu | src/components/Navbar.tsx:24-69 | Authenticated: welcome with the role icon, Dashboard with the role's target, and Logout. Otherwise exactly Login and Register. |
| Navbar.HandleLogout | src/components/Navbar.tsx:11-14 | The provider moves by the logout step, then the landing page is opened. |
| DashboardSidebar.Navigation | src/components/DashboardSidebar.tsx:31-49 | The company links for "company" and the investor links otherwise. There are six links, each with the role's prefix, and no two share an address. |
| DashboardSidebar.AtMostOneActive | src/components/DashboardSidebar.tsx:76-77 | For any path, at most one link is highlighted. |
| DashboardSidebar.AvatarInitial | src/components/DashboardSidebar.tsx:105 | One letter: the name's first character, or "U" when the name is absent or empty. |
| DashboardSidebar.RoleLabel | src/components/DashboardSidebar.tsx:110 | "Company Owner" exactly for "company", and "PE Investor" otherwise. |
| DashboardSidebar.Toggled | src/components/DashboardSidebar.tsx:64 | The collapse button always flips the state. |
| DashboardSidebar.ToggleTwice | src/components/DashboardSidebar.tsx:64 | Two toggles restore the state. |
| Backend.HashChecks | src/backend/app.py:69 | A stored hash checks against its own password and not against any other. |
| Backend.FirstAbsent | src/backend/app.py:87-89 | No key is reported exactly when every required key is present. A reported key is required and absent. |
| Backend.FirstAbsentIsFirst | src/backend/app.py:87-89 | The key reported is the first absent one, and every earlier key is present. |
| Backend.CheckRequired | src/backend/app.py:87-89 | The loop with early return reports the first absent required key. |
| Backend.FindUser | src/backend/app.py:65-67 | A found row is in the table and has the username, which is not null. None means the username is null or no row has it, since `= NULL` never matches in SQL. |
| Backend.FindCompany | src/backend/app.py:147 | A found row is in the table and has the id. None means no row has it. |
| Backend.SetDefault | src/backend/app.py:180 | The key is added if absent and kept if present, and every other key is unchanged. |
| Backend.DefaultsKeep | src/backend/app.py:179-185 | Keys outside the six optional columns pass through the defaults untouched. |
| Backend.DefaultsFill | src/backend/app.py:179-185 | Each optional column holds the body's value if the key was present, else "Active", 0, 0, 2000, 0 or 0. |
| Backend.DefaultsFillRow | src/backend/app.py:179-201 | The inserted row is the body's required columns plus the defaulted optional ones. |
| Backend.SeedMatchesMockUsers | src/backend/app.py:37-46 | The seeded users are the front end's credential fixture: same ids, usernames, names, emails and types, and each fixture password checks. |
| Backend.FormRequestHasRequiredFields | src/backend/app.py:84-89 | Every body the register form sends carries every key `register` requires. |
| Backend.Database.constructor | src/backend/app.py:37-47 | A new database holds the two seeded users and no companies. |
| Backend.Database.Login | src/backend/app.py:55-79 | 400 without truthy credentials. The same 401 for an unknown user and a wrong password. 200 with the row's public fields and no password when the hash checks. 500 for a non-string password. |
| Backend.Database.Register | src/backend/app.py:81-116 | 400 naming the first absent key. 400 for a taken username, with the table unchanged. 500 for a non-string password. Otherwise exactly one row is appended, with the next id and the hashed password. Non-null usernames stay unique; a null username is never found taken. |
| Backend.Database.GetCompanies | src/backend/app.py:118-142 | 200 with every row in table order. |
| Backend.Database.GetCompany | src/backend/app.py:144-167 | 404 exactly when no row has the id. Otherwise 200 with a row that has it. |
| Backend.Database.CreateCompany | src/backend/app.py:169-211 | 400 naming the first absent required key, with the table unchanged. Otherwise 201 with the next id, and exactly the defaulted row is appended. |
| Backend.RegisterThenLogin | src/backend/app.py:55-116 | After registering, login with the same password returns 200 with the new row's id, username, name, email and type. Any other password gets the unknown-user 401. |
| AppRoutes.PageAt | src/App.tsx:28-47 | "/" is the landing page and /register the sign-up page. The two dashboards are guarded with the role each requires, /login is the sign-in page, and any other path, compared exactly, is not found. |
| AppRoutes.RoleHomeAdmits | src/components/ProtectedRoute.tsx:21-29 | The guard's home for "company" or "investor" is the route guarded with exactly that role, where a signed-in user of that role settles. For any other role it is the sign-in page. |
| AppRoutes.AsWrittenInvestorDetour | src/pages/LoginPage.tsx:22-24 | As written, an investor on /login is sent to the company dashboard first, and its guard then sends the investor home. |
| AppRoutes.AsWrittenKnownRolesSettle | src/pages/LoginPage.tsx:22-24 | As written, a company owner or an investor settles within two navigations from any path. |
| AppRoutes.AsWrittenUnknownRoleLoops | src/pages/LoginPage.tsx:22-24 | As written, for any other signed-in role the two pages' decisions alternate between /login and /company-dashboard, so following them never settles. |
| AppRoutes.CompanyDashboardLoops | src/components/ProtectedRoute.tsx:27-28 | From the company dashboard, such a role only ever reaches /login or the company dashboard. |
| AppRoutes.LoginRedirect | src/pages/LoginPage.tsx:22-24 | Corrected redirect: a redirect is issued exactly for a signed-in known role, to that role's guarded home. |
| AppRoutes.CorrectedSettles | src/components/ProtectedRoute.tsx:18-31 | With the corrected redirect, every session settles within one navigation from any path. |
| AppRoutes.CorrectedAgrees | src/pages/LoginPage.tsx:22-24 | For known roles, the corrected redirect reaches in one step where the written one reaches in two. |
| AppRoutes.MalformedSlotBlocksDashboards | src/contexts/AuthContext.tsx:56-61 | With unparseable stored text, restore changes nothing, so the dashboards never redirect and show only the loading screen. |
| AppRoutes.NavbarAgreesWithGuard | src/components/Navbar.tsx:38-42 | The Dashboard button goes to the guard's home exactly for known roles. For any other role it opens a page whose guard sends the user to /login. |
| AppRoutes.SidebarLinks | src/components/DashboardSidebar.tsx:33-49 | The side menu's first link is the Dashboard button's target, and the other five links lead to paths the router does not know. |

## Left out

- Network calls are left out. The answer of `POST /api/login` is a parameter
  of login: accepted with a user record, rejected, or unreachable. The dead
  `if (!mockUser)` else-path in its `catch` gives nothing to model.
- `register` in the provider is left out, because it is only a network call and
  toasts. Note that it reads `errorData.message`, while the service answers
  errors under `error`, so its toast would always say "Something went wrong".
- Toasts, React effect scheduling, `useNavigate` and async ordering are left
  out. Navigation is a returned target, and the submit handlers run their steps
  in sequence.
- AppRoutes.PageAt: paths are compared exactly. The router matches routes case-insensitively and ignores a trailing slash, so "/Login" or "/company-dashboard/" mount real pages where the model finds none; that matching is not modelled.
- AppRoutes.AsWrittenUnknownRoleLoops: every navigation a page decides on is taken to happen. React Router ignores a `navigate()` made before a component's first layout effect, and the sign-in page calls it during render. So in the running app the bounce may stop on /login with the user still signed in.
- JSON parsing and serialisation are not modelled. The storage slot holds either
  a user record, written and read back unchanged, or text that is not JSON.
  Valid JSON that is not a user record, such as `null`, is not modelled. For
  `null`, the provider would set `isAuthenticated` with no user.
- In the service, request bodies are objects of strings, integers, booleans and
  null. Bodies that are not objects, or that hold arrays or nested objects, are
  left out.
- SQLite type affinity is left out (an integer username matching a text column),
  and so are `schema.sql` constraints. The schema file is not part of this
  model. Failures raised by the database are left out too. The only 500s
  modelled are those raised by hashing a non-string password.
- Backend.Database.Login: a non-string password is only said to give status
  500. The error text is the exception's message, which is not modelled.
- Backend.Database.Register: a non-string password is only said to give status
  500, for the same reason.
- Password hashing is a deterministic stand-in, with a hash that checks against
  its own password only. Werkzeug's salted hashes are not modelled.
- `get_db`, `close_connection`, CORS and the debug server are left out. The ids
  SQLite assigns are modelled as a counter above every existing id.
- Charts and grids are left out: recharts, AG Grid pagination, column sizing and
  resize listeners. So is the pie label's floating-point percentage.
- NumberFormat.DigitsShape: the model prints every natural number in plain digits. JavaScript's `String(n)` switches to exponent form ("1e+21") from 10^21, which is not modelled.
- NumberFormat.IntStringRoundTrip: integers are unbounded. JavaScript numbers are doubles, so exponent form from 10^21 and the loss of exactness above 2^53 are not modelled.
- NumberFormat.LocaleRoundTrip: the same double-precision limits apply to `toLocaleString` and are not modelled.
- NumberFormat.CurrencyLabel: the same double-precision limits apply to the money cells and are not modelled.
- DashboardSidebar.AvatarInitial: strings are sequences of Unicode scalars. `charAt(0)` returns the first UTF-16 code unit, which is half of a surrogate pair for a name starting outside the Basic Multilingual Plane (an emoji, say). The model returns the whole first character there.
- `toLocaleString` is fixed to en-US grouping. Non-integer and missing (NaN)
  grid values are left out, because the fixture holds only integers.
- RegisterPage.Validate: the length check counts characters, while `password.length` counts UTF-16 code units. So a password of three emoji passes the source's check but fails the model's.
- src/pages/Index.tsx is static markup and is not part of this model.

## Findings

| source | as written | input that shows it | evidently intended | confidence | as-written member | corrected member |
|---|---|---|---|---|---|---|
| src/pages/LoginPage.tsx:22-24 | Every signed-in user on /login is sent to /company-dashboard, whatever the role. An investor reaches its own dashboard only through that page's guard. For a role other than "company" or "investor", the guard sends the user back to /login, and the two pages' decisions alternate without settling. In the running app the router may drop the sign-in page's first-render redirect, leaving the user signed in on /login. | A user with type "admin" signed in. `register` stores any `type` string, and login returns it. | Send a signed-in user to the home of its role, and stay on /login when the role has no home. | medium, not executed | AppRoutes.AsWrittenUnknownRoleLoops | AppRoutes.CorrectedSettles |

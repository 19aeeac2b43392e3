/** The dashboards' side menu (src/components/DashboardSidebar.tsx). */
module DashboardSidebar {
  import opened Common

  datatype NavItem = NavItem(name: string, href: string)

  const CompanyNavigation: seq<NavItem> := [
    NavItem("Dashboard", "/company-dashboard"),
    NavItem("My Listings", "/company-listings"),
    NavItem("Investor Matches", "/company-matches"),
    NavItem("Messages", "/company-messages"),
    NavItem("Documents", "/company-documents"),
    NavItem("Settings", "/company-settings")
  ]

  const InvestorNavigation: seq<NavItem> := [
    NavItem("Dashboard", "/investor-dashboard"),
    NavItem("Search Companies", "/investor-search"),
    NavItem("My Portfolio", "/investor-portfolio"),
    NavItem("Deal Pipeline", "/investor-pipeline"),
    NavItem("Messages", "/investor-messages"),
    NavItem("Settings", "/investor-settings")
  ]

  predicate IsCompanyOwner(userType: Option<string>) {
    userType == Some("company")
  }

  /** The path prefix every link of a role's menu shares. */
  function RolePrefix(userType: Option<string>): string {
    if IsCompanyOwner(userType) then "/company-" else "/investor-"
  }

  /** The menu: the company links for a company owner; the investor links for
      anyone else, including no user at all. Every link carries the role's
      prefix and no two links share an address. */
  function Navigation(userType: Option<string>): (items: seq<NavItem>)
    ensures items == (if IsCompanyOwner(userType) then CompanyNavigation else InvestorNavigation)
    ensures |items| == 6
    ensures forall i :: 0 <= i < |items| ==> RolePrefix(userType) <= items[i].href
    ensures forall i, j :: 0 <= i < j < |items| ==> items[i].href != items[j].href
  {
    if IsCompanyOwner(userType) then CompanyNavigation else InvestorNavigation
  }

  /** A link is highlighted when it is the current path. */
  predicate IsActive(pathname: string, item: NavItem) {
    pathname == item.href
  }

  /** Whatever the path, at most one link is highlighted. */
  lemma AtMostOneActive(userType: Option<string>, pathname: string, i: nat, j: nat)
    requires i < |Navigation(userType)| && j < |Navigation(userType)|
    requires IsActive(pathname, Navigation(userType)[i]) && IsActive(pathname, Navigation(userType)[j])
    ensures i == j
  {
  }

  /** The avatar letter: `user?.name?.charAt(0) || "U"`. */
  function AvatarInitial(name: Option<string>): (letter: string)
    ensures |letter| == 1
    ensures name.Some? && name.value != "" ==> letter[0] == name.value[0]
    ensures name.None? || name.value == "" ==> letter == "U"
  {
    if name.Some? && name.value != "" then name.value[..1] else "U"
  }

  /** The role line under the name. */
  function RoleLabel(userType: Option<string>): (text: string)
    ensures text == "Company Owner" <==> IsCompanyOwner(userType)
    ensures text == "PE Investor" <==> !IsCompanyOwner(userType)
  {
    if IsCompanyOwner(userType) then "Company Owner" else "PE Investor"
  }

  /** The collapse button: `setCollapsed(!collapsed)`. */
  function Toggled(collapsed: bool): (next: bool)
    ensures next != collapsed
  {
    !collapsed
  }

  lemma ToggleTwice(collapsed: bool)
    ensures Toggled(Toggled(collapsed)) == collapsed
  {
  }
}

/**
 * The top navigation bar: the role-dependent list of links, which link is
 * highlighted, the avatar initial and name in the user menu, and the logout item.
 */
module Navigation {
  import opened Wrappers
  import opened Auth
  import App
  import Strings
  import Ui

  datatype NavItem = NavItem(name: string, href: string)

  /** The links every visitor gets, in this order. */
  const BaseItems: seq<NavItem> := [
    NavItem("Dashboard", "/dashboard"),
    NavItem("Schemes", "/schemes"),
    NavItem("Applications", "/applications")
  ]

  const AdminPanel: NavItem := NavItem("Admin Panel", "/admin")

  /**
   * `navItems`: the three base links, then "Admin Panel" appended last for an
   * Admin and for nobody else (a signed-out visitor included).
   */
  function NavItems(user: Option<User>): (r: seq<NavItem>)
    ensures |r| >= 3 && r[..3] == BaseItems
    ensures |r| == (if user.Some? && user.value.role == "Admin" then 4 else 3)
    ensures |r| == 4 ==> r[3] == AdminPanel
  {
    if HasRole(user, AdminRole) then BaseItems + [AdminPanel] else BaseItems
  }

  /** A link is highlighted iff the current pathname equals its href exactly. */
  predicate IsActive(pathname: string, item: NavItem) {
    pathname == item.href
  }

  /** The hrefs are distinct, so at most one link is highlighted for any pathname. */
  lemma AtMostOneActive(user: Option<User>, pathname: string)
    ensures forall i, j :: 0 <= i < j < |NavItems(user)| && IsActive(pathname, NavItems(user)[i])
                           ==> !IsActive(pathname, NavItems(user)[j])
  {
  }

  /** The "Admin Panel" link is offered to exactly the users `AdminRoute` admits. */
  lemma AdminPanelIffAdminRoute(user: Option<User>)
    ensures AdminPanel in NavItems(user) <==> App.Admits(App.AdminOnly, user)
  {
    assert AdminPanel !in BaseItems;
  }

  /** The "Admin Panel" link points at `/admin`, a path no route declares: it reaches the catch-all page. */
  lemma AdminPanelLinkHasNoRoute()
    ensures App.GuardOf(AdminPanel.href).None?
  {
  }

  /** `user?.name || "User"`: the name shown in the user menu. */
  function DisplayName(user: Option<User>): (r: string)
    ensures |r| > 0
    ensures r == "User" || (user.Some? && r == user.value.name)
    ensures user.Some? && user.value.name != "" ==> r == user.value.name
  {
    if user.Some? && user.value.name != "" then user.value.name else "User"
  }

  /** `user?.name?.charAt(0)?.toUpperCase() || "U"`: one character, never a lower-case ASCII letter. */
  function AvatarInitial(user: Option<User>): (r: string)
    ensures |r| == 1 && !Strings.IsLowerLetter(r[0])
  {
    if user.Some? && |user.value.name| > 0 then [Strings.UpperChar(user.value.name[0])] else "U"
  }

  /**
   * The avatar shows the upper-cased first letter of the name the menu
   * displays; in particular "U" exactly when the menu falls back to "User".
   */
  lemma AvatarMatchesDisplayName(user: Option<User>)
    ensures AvatarInitial(user) == [Strings.UpperChar(DisplayName(user)[0])]
    ensures DisplayName(user) == "User" ==> AvatarInitial(user) == "U"
  {
  }

  /** `handleLogout`: sign out, then go to the login page. */
  function HandleLogout(s: Session): (r: (Session, Ui.Event))
    ensures r.0.user.None? && r.0.stored.None?
    ensures r.1 == Ui.Navigate("/login")
  {
    (Logout(s), Ui.Navigate("/login"))
  }

  /**
   * After logging out, every guarded page turns the visitor away, while the
   * login page the handler navigates to is unguarded and renders.
   */
  lemma LogoutLandsOnLogin(s: Session)
    ensures App.Check(App.Protected, HandleLogout(s).0.user) == App.Redirect("/login")
    ensures !App.Admits(App.OfficerAdmin, HandleLogout(s).0.user)
    ensures !App.Admits(App.AdminOnly, HandleLogout(s).0.user)
    ensures App.Visit(HandleLogout(s).1.to, HandleLogout(s).0.user) == App.Render
  {
  }
}

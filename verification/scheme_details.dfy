/**
 * The scheme details page: the same Citizen-only gate as the catalogue, on two
 * Apply buttons, each wrapped in a link to the application form of the scheme.
 */
module SchemeDetails {
  import opened Wrappers
  import opened Auth
  import App
  import Schemes
  import Ui

  /** The id of the demo scheme the page always shows. */
  const PageSchemeId: string := "1"

  /** `/apply/${scheme.id}`: the application form of a scheme. */
  function ApplyLink(schemeId: string): (r: string)
    ensures |r| == |schemeId| + 7 && r[..7] == "/apply/" && r[7..] == schemeId
  {
    "/apply/" + schemeId
  }

  /**
   * The target of both apply links on the page reached as `/schemes/:id`. The
   * page reads the route's id but renders the demo scheme, so it links to
   * that scheme's form whatever the id.
   */
  function PageApplyLink(routeId: string): (r: string)
    ensures |r| == 8 && r[..7] == "/apply/" && r[7..] == PageSchemeId
  {
    ApplyLink(PageSchemeId)
  }

  /**
   * Every scheme page offers the form of scheme "1": for any other route id
   * the link misses the scheme the visitor asked for.
   */
  lemma LinkIgnoresRouteId(routeId: string, otherId: string)
    ensures PageApplyLink(routeId) == PageApplyLink(otherId) == "/apply/1"
    ensures routeId != PageSchemeId ==> PageApplyLink(routeId) != ApplyLink(routeId)
  {
    assert ApplyLink(routeId)[7..] == routeId;
  }

  /**
   * `handleApply`: a destructive "Access Denied" for anyone but a Citizen,
   * otherwise the notice that the application form follows.
   */
  function HandleApply(user: Option<User>): (r: Ui.Event)
    ensures r.Toast?
    ensures r.destructive <==> !(user.Some? && user.value.role == "Citizen")
    ensures r.title == (if r.destructive then "Access Denied" else "Redirecting to Application")
  {
    if !HasRole(user, CitizenRole) then Ui.Toast("Access Denied", true)
    else Ui.Toast("Redirecting to Application", false)
  }

  /** The two buttons of the page are disabled by the same test as the catalogue's button. */
  predicate ApplyDisabled(user: Option<User>) {
    Schemes.ApplyDisabled(user)
  }

  /**
   * The details page and the catalogue refuse exactly the same users, and the
   * page's buttons are disabled for exactly those.
   */
  lemma SameGateAsCatalogue(user: Option<User>, schemeName: string)
    ensures HandleApply(user).destructive == Schemes.HandleApply(user, schemeName).destructive
    ensures ApplyDisabled(user) <==> HandleApply(user).destructive
  {
  }

  /**
   * Whoever finds the buttons enabled is signed in, so the protected route
   * the link leads to renders the application form.
   */
  lemma EnabledApplyReachesForm(user: Option<User>)
    requires !ApplyDisabled(user)
    ensures App.GuardOf("/apply/:schemeId") == Some(App.Protected)
    ensures App.Admits(App.Protected, user)
  {
  }
}

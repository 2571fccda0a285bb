/**
 * The registration page's submit handler: a role must be picked, then
 * `register` is called with the form's values and the page moves on to the
 * dashboard.
 */
module Register {
  import opened Wrappers
  import opened Auth
  import App
  import Schemes
  import Ui

  /** The role picker's options, in order. */
  const RoleOptions: seq<string> := [CitizenRole, OfficerRole, AdminRole]

  datatype RegisterForm = RegisterForm(name: string, email: string, password: string, role: string)

  /** What a submit produces: the toasts and navigations in order, and the provider state after it. */
  datatype Submitted = Submitted(events: seq<Ui.Event>, session: Session, registerCalled: bool)

  /**
   * `handleSubmit`. With no role: a destructive "Please select a role" and no
   * call. Otherwise `register(name, email, password, role)`, then on success
   * "Registration Successful" and a navigation to `/dashboard`, on failure
   * "Registration Failed". `id` stands for the `Date.now()` value `register` uses.
   */
  function HandleSubmit(s: Session, form: RegisterForm, id: string): (r: Submitted)
    ensures r.registerCalled <==> form.role != ""
    ensures !r.registerCalled ==> r.session == s && r.events == [Ui.Toast("Please select a role", true)]
  {
    if form.role == "" then
      Submitted([Ui.Toast("Please select a role", true)], s, false)
    else
      var o := Auth.Register(s, form.name, form.email, form.password, form.role, id);
      if o.ok then
        Submitted([Ui.Toast("Registration Successful", false), Ui.Navigate("/dashboard")], o.session, true)
      else
        Submitted([Ui.Toast("Registration Failed", true)], o.session, true)
  }

  /**
   * Because `register` always succeeds, a submit with a role always signs in
   * exactly the entered values and lands on the dashboard, which its guard
   * lets the new user see; the failure toast can never appear.
   */
  lemma SubmitWithRoleLandsOnDashboard(s: Session, form: RegisterForm, id: string)
    requires form.role != ""
    ensures HandleSubmit(s, form, id).session.user == Some(User(id, form.name, form.email, form.role))
    ensures HandleSubmit(s, form, id).events == [Ui.Toast("Registration Successful", false), Ui.Navigate("/dashboard")]
    ensures App.Visit("/dashboard", HandleSubmit(s, form, id).session.user) == App.Render
  {
  }

  /** No submit ever shows "Registration Failed". */
  lemma FailureBranchUnreachable(s: Session, form: RegisterForm, id: string)
    ensures Ui.Toast("Registration Failed", true) !in HandleSubmit(s, form, id).events
  {
  }

  /**
   * The picker offers the three roles, but nothing after it checks the role:
   * any other non-empty string is registered as given. Such a user passes
   * the sign-in guard, no role guard, and cannot apply for schemes.
   */
  lemma UnlistedRoleIsAccepted(s: Session, form: RegisterForm, id: string)
    requires form.role != "" && form.role !in RoleOptions
    ensures HandleSubmit(s, form, id).session.user.Some?
    ensures HandleSubmit(s, form, id).session.user.value.role == form.role
    ensures App.Admits(App.Protected, HandleSubmit(s, form, id).session.user)
    ensures !App.Admits(App.OfficerAdmin, HandleSubmit(s, form, id).session.user)
    ensures Schemes.ApplyDisabled(HandleSubmit(s, form, id).session.user)
  {
  }
}

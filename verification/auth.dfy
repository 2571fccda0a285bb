/**
 * The authentication context of `useAuth`: the signed-in user, its copy in
 * browser storage under "govPortalUser", and the loading flag, with the
 * login / register / logout operations over the three demo accounts.
 *
 * The simulated network delay is not modelled: each operation is the state the
 * provider holds once the call has returned. The storage entry is a plain
 * optional user (its JSON encoding is taken to round-trip exactly), and the
 * `Date.now()` id of a registered user is a parameter.
 */
module Auth {
  import opened Wrappers

  const AdminRole: string := "Admin"
  const OfficerRole: string := "Officer"
  const CitizenRole: string := "Citizen"

  /**
   * A user. `role` is a plain string: the type names three roles, but
   * `register` casts whatever role string it is given, so nothing enforces them.
   */
  datatype User = User(id: string, name: string, email: string, role: string)

  /** `user?.role === role`: never true when nobody is signed in. */
  predicate HasRole(user: Option<User>, role: string) {
    user.Some? && user.value.role == role
  }

  /** The demo accounts `login` accepts. */
  const MockUsers: seq<User> := [
    User("1", "Admin User", "admin@gov.in", AdminRole),
    User("2", "Officer Kumar", "officer@gov.in", OfficerRole),
    User("3", "Citizen Sharma", "citizen@email.com", CitizenRole)
  ]

  /** The provider state: current user, stored session, loading flag. */
  datatype Session = Session(user: Option<User>, stored: Option<User>, isLoading: bool)

  /** The stored session mirrors the current user. */
  predicate Mirrored(s: Session) {
    s.stored == s.user
  }

  /** What `login` and `register` resolve to, with the state they leave behind. */
  datatype Outcome = Outcome(ok: bool, session: Session)

  /** The provider as first rendered: nobody signed in, loading, storage as an earlier visit left it. */
  function Mount(stored: Option<User>): Session {
    Session(None, stored, true)
  }

  /** The restore effect run once on load: a stored session becomes the current user. */
  function Restore(s: Session): (r: Session)
    ensures !r.isLoading && r.stored == s.stored
    ensures r.user == (if s.stored.Some? then s.stored else s.user)
  {
    match s.stored
    case Some(u) => s.(user := Some(u), isLoading := false)
    case None => s.(isLoading := false)
  }

  /** `users.find(u => u.email === email)`, as the index of the first match. */
  function FindByEmail(users: seq<User>, email: string): (r: Option<nat>)
    ensures r.Some? ==> r.value < |users| && users[r.value].email == email
    ensures r.Some? ==> forall j :: 0 <= j < r.value ==> users[j].email != email
    ensures r.None? ==> forall j :: 0 <= j < |users| ==> users[j].email != email
  {
    if |users| == 0 then None
    else if users[0].email == email then Some(0)
    else
      match FindByEmail(users[1..], email)
      case None => None
      case Some(k) => Some(k + 1)
  }

  /**
   * `login(email, password)`: succeeds iff some demo account has exactly this
   * email, and then signs in (and stores) the first such account. The password
   * is never looked at. A failed login leaves user and storage as they were.
   */
  function Login(s: Session, email: string, password: string): (r: Outcome)
    ensures r.ok <==> exists i :: 0 <= i < |MockUsers| && MockUsers[i].email == email
    ensures r.ok ==> exists i :: 0 <= i < |MockUsers| && r.session.user == Some(MockUsers[i])
                                 && MockUsers[i].email == email
                                 && forall j :: 0 <= j < i ==> MockUsers[j].email != email
    ensures r.ok ==> r.session.stored == r.session.user
    ensures !r.ok ==> r.session.user == s.user && r.session.stored == s.stored
    ensures !r.session.isLoading
  {
    match FindByEmail(MockUsers, email)
    case Some(i) =>
      var found := MockUsers[i];
      Outcome(true, Session(Some(found), Some(found), false))
    case None =>
      Outcome(false, s.(isLoading := false))
  }

  /**
   * `register(name, email, password, role)`: always succeeds, signing in a new
   * user with the given name, email and unchecked role, under the caller's id.
   */
  function Register(s: Session, name: string, email: string, password: string, role: string, id: string): (r: Outcome)
    ensures r.ok
    ensures r.session.user.Some? && r.session.user.value == User(id, name, email, role)
    ensures Mirrored(r.session) && !r.session.isLoading
  {
    var newUser := User(id, name, email, role);
    Outcome(true, Session(Some(newUser), Some(newUser), false))
  }

  /** `logout()`: nobody is signed in and the stored session is removed; the loading flag is untouched. */
  function Logout(s: Session): (r: Session)
    ensures r.user.None? && Mirrored(r)
    ensures r.isLoading == s.isLoading
  {
    Session(None, None, s.isLoading)
  }

  /** Login signs in exactly the three demo emails, each as its own role, whatever the password. */
  lemma DemoAccounts(s: Session, email: string, password: string)
    ensures Login(s, email, password).ok <==> email in {"admin@gov.in", "officer@gov.in", "citizen@email.com"}
    ensures email == "admin@gov.in" ==> HasRole(Login(s, email, password).session.user, AdminRole)
    ensures email == "officer@gov.in" ==> HasRole(Login(s, email, password).session.user, OfficerRole)
    ensures email == "citizen@email.com" ==> HasRole(Login(s, email, password).session.user, CitizenRole)
  {
    var r := Login(s, email, password);
    assert MockUsers[0].email == "admin@gov.in" && MockUsers[1].email == "officer@gov.in"
      && MockUsers[2].email == "citizen@email.com";
    if r.ok {
      var i :| 0 <= i < |MockUsers| && MockUsers[i].email == email;
      assert i == 0 || i == 1 || i == 2;
    }
  }

  /** The password argument of `login` has no influence on the result. */
  lemma LoginIgnoresPassword(s: Session, email: string, p1: string, p2: string)
    ensures Login(s, email, p1) == Login(s, email, p2)
  {
  }

  /** The session operations a user can trigger after load. */
  datatype Action =
    | SignIn(email: string, password: string)
    | SignUp(name: string, email: string, password: string, role: string, id: string)
    | SignOut

  function Step(s: Session, a: Action): Session {
    match a
    case SignIn(e, p) => Login(s, e, p).session
    case SignUp(n, e, p, r, id) => Register(s, n, e, p, r, id).session
    case SignOut => Logout(s)
  }

  /** The session after the actions, in order. */
  function Run(s: Session, actions: seq<Action>): Session
    decreases |actions|
  {
    if |actions| == 0 then s else Run(Step(s, actions[0]), actions[1..])
  }

  /** Every operation keeps the stored session equal to the current user and leaves the provider idle. */
  lemma {:induction false} ActionsKeepMirror(s: Session, actions: seq<Action>)
    requires Mirrored(s) && !s.isLoading
    ensures Mirrored(Run(s, actions)) && !Run(s, actions).isLoading
    decreases |actions|
  {
    if |actions| > 0 {
      var t := Step(s, actions[0]);
      assert Mirrored(t) && !t.isLoading;
      ActionsKeepMirror(t, actions[1..]);
    }
  }

  /**
   * From load onwards the stored session mirrors the current user: restoring
   * adopts the stored user (or keeps nobody signed in), and every later
   * operation writes or clears both together.
   */
  lemma SessionMirrorsStorage(stored: Option<User>, actions: seq<Action>)
    ensures Restore(Mount(stored)).user == stored
    ensures Mirrored(Run(Restore(Mount(stored)), actions))
    ensures !Run(Restore(Mount(stored)), actions).isLoading
  {
    ActionsKeepMirror(Restore(Mount(stored)), actions);
  }

  /** Signing out twice is the same as signing out once. */
  lemma LogoutIdempotent(s: Session)
    ensures Logout(Logout(s)) == Logout(s)
  {
  }
}

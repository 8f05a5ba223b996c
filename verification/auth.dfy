/**
 * The admin session: a fixed-credential login, a logout, and the route
 * guard that shows the admin pages only to an authenticated session.
 * The login delay is collapsed and the persisted copy of the state is not modelled.
 */
module Auth {
  import opened Wrappers

  datatype User = User(email: string, name: string)

  const AdminEmail := "admin@paraty.com"
  const AdminPassword := "admin123"
  const AdminName := "Administrador"

  /** The only accepted pair: exact, case-sensitive equality on both. */
  predicate Accepted(email: string, password: string) {
    email == AdminEmail && password == AdminPassword
  }

  /** What the route guard shows. */
  datatype Screen = AdminContent | RedirectToLogin

  /** `ProtectedRoute`: the children when authenticated, the login page otherwise. */
  function Guard(isAuthenticated: bool): (r: Screen)
    ensures r == AdminContent <==> isAuthenticated
  {
    if isAuthenticated then AdminContent else RedirectToLogin
  }

  class AuthStore {
    var isAuthenticated: bool
    var user: Option<User>

    /** Authenticated exactly when a user is recorded. */
    ghost predicate Valid()
      reads this
    {
      ValidSession(State())
    }

    /** The store's state as a session value. */
    function State(): Session
      reads this
    {
      Session(isAuthenticated, user)
    }

    /** Signed out, with no user. */
    constructor ()
      ensures Valid()
      ensures !isAuthenticated && user == None
      ensures State() == SignedOut
    {
      isAuthenticated := false;
      user := None;
    }

    /** `login`: the admin pair signs in; any other pair changes nothing. */
    method Login(email: string, password: string) returns (ok: bool)
      requires Valid()
      modifies this
      ensures Valid()
      ensures ok <==> Accepted(email, password)
      ensures ok ==> isAuthenticated && user == Some(User(email, AdminName))
      ensures !ok ==> isAuthenticated == old(isAuthenticated) && user == old(user)
      ensures State() == AfterLogin(old(State()), email, password)
    {
      if email == AdminEmail && password == AdminPassword {
        isAuthenticated := true;
        user := Some(User(email, AdminName));
        return true;
      }
      return false;
    }

    /** `logout`: signed out, with no user, whatever the state before. */
    method Logout()
      modifies this
      ensures Valid()
      ensures !isAuthenticated && user == None
      ensures State() == AfterLogout(old(State()))
    {
      isAuthenticated := false;
      user := None;
    }

    /** The guard over this store's state. */
    function Shows(): (r: Screen)
      reads this
      ensures r == AdminContent <==> isAuthenticated
    {
      Guard(isAuthenticated)
    }
  }

  // ---------------------------------------------------------------------------
  // The same state as a value, for properties of several calls

  datatype Session = Session(isAuthenticated: bool, user: Option<User>)

  const SignedOut := Session(false, None)

  predicate ValidSession(s: Session) { s.isAuthenticated <==> s.user.Some? }

  function AfterLogin(s: Session, email: string, password: string): (r: Session)
    ensures Accepted(email, password) ==> r == Session(true, Some(User(email, AdminName)))
    ensures !Accepted(email, password) ==> r == s
  {
    if Accepted(email, password) then Session(true, Some(User(email, AdminName))) else s
  }

  function AfterLogout(s: Session): (r: Session)
    ensures !r.isAuthenticated && r.user.None?
  {
    SignedOut
  }

  /** Both transitions keep authentication and the recorded user in step. */
  lemma TransitionsKeepValid(s: Session, email: string, password: string)
    requires ValidSession(s)
    ensures ValidSession(AfterLogin(s, email, password))
    ensures ValidSession(AfterLogout(s))
  {
  }

  /** Logging out twice is logging out once; a failed login leaves a session in place. */
  lemma SessionLaws(s: Session, email: string, password: string)
    ensures AfterLogout(AfterLogout(s)) == AfterLogout(s)
    ensures s.isAuthenticated && !Accepted(email, password) ==> AfterLogin(s, email, password).isAuthenticated
    ensures AfterLogin(AfterLogout(s), email, password).isAuthenticated <==> Accepted(email, password)
  {
  }

  /** From the signed-out start, the admin content is reachable only through the admin pair. */
  lemma AdminNeedsCredentials(email: string, password: string)
    ensures Guard(AfterLogin(SignedOut, email, password).isAuthenticated) == AdminContent
        <==> Accepted(email, password)
  {
  }
}

/**
 * The session store of `AuthProvider`: the current `user` (or none), the
 * `loading` flag, the persisted `token` slot of local storage, and the last
 * target passed to `navigate`. Startup restore, `login` and `logout` are
 * modelled as transitions of a `Session` snapshot; `Store` is the object that
 * holds the snapshot's fields and applies those transitions in place.
 *
 * The two mocked collaborators are modelled as written: the identity lookup of
 * `fetchUserInfo` always yields the role 'cashier', and `login` accepts only
 * admin/password, yielding the role 'owner'.
 */
module Auth {
  import opened Common

  datatype User = User(userId: int, username: string, role: string, fullName: string, email: string)

  datatype LoginResponse = LoginResponse(token: string, user: User)

  const OwnerRole := "owner"
  const CashierRole := "cashier"

  const MockToken := "fake-jwt-token"
  const InvalidCredentials := "Invalid credentials"

  const LoginPath := "/login"
  const DashboardPath := "/dashboard"
  const RootPath := "/"

  /** The identity the startup lookup resolves to. */
  const RestoredUser := User(1, "admin", CashierRole, "Admin Restoran", "admin@restoran.com")

  /** The identity a successful mock login resolves to. */
  const LoggedInUser := User(1, "admin", OwnerRole, "Admin Restoran", "admin@restoran.com")

  /** The mock credential check inside `login`. */
  function MockAuthenticate(username: string, password: string): (r: Result<LoginResponse, string>)
    ensures r.Ok? <==> username == "admin" && password == "password"
    ensures r.Ok? ==> r.value == LoginResponse(MockToken, LoggedInUser)
    ensures r.Err? ==> r.error == InvalidCredentials
  {
    if username == "admin" && password == "password" then Ok(LoginResponse(MockToken, LoggedInUser))
    else Err(InvalidCredentials)
  }

  /** Where a successful login sends the user, by role. */
  function LandingPath(role: string): (r: string)
    ensures r == DashboardPath <==> role == OwnerRole || role == CashierRole
    ensures r != DashboardPath ==> r == RootPath
  {
    if role == OwnerRole || role == CashierRole then DashboardPath else RootPath
  }

  datatype Session = Session(user: Option<User>, loading: bool, token: Option<string>, location: Option<string>)
  {
    /** `isAuthenticated: !!user` */
    predicate IsAuthenticated()
    {
      user.Some?
    }

    /** The provider renders its children only once loading is over. */
    predicate RendersChildren()
    {
      !loading
    }
  }

  /** The first render, with `stored` the token found in local storage. */
  function Initial(stored: Option<string>): (s: Session)
    ensures s.user == None && s.loading && s.token == stored && s.location == None
    ensures !s.IsAuthenticated() && !s.RendersChildren()
  {
    Session(None, true, stored, None)
  }

  /** The mount effect starts an identity lookup iff a (truthy) token is stored. */
  predicate RestorePending(s: Session)
  {
    Present(s.token)
  }

  /** The mount effect: with no token, loading ends at once; otherwise the lookup starts. */
  function StartRestore(s: Session): (r: Session)
    ensures RestorePending(s) ==> r == s
    ensures !RestorePending(s) ==> r == s.(loading := false)
  {
    if Present(s.token) then s else s.(loading := false)
  }

  /** `logout()`: clear the token and the user, go to the login page. */
  function Logout(s: Session): (r: Session)
    ensures r.user == None && r.token == None && r.location == Some(LoginPath)
    ensures r.loading == s.loading
    ensures !r.IsAuthenticated()
  {
    s.(user := None, token := None, location := Some(LoginPath))
  }

  /** `fetchUserInfo` settles: a resolved lookup sets the user, a rejected one logs out. */
  function ResolveRestore(s: Session, succeeded: bool): (r: Session)
    ensures !r.loading
    ensures succeeded ==> r == s.(user := Some(RestoredUser), loading := false)
    ensures !succeeded ==> r == Logout(s).(loading := false)
  {
    if succeeded then s.(user := Some(RestoredUser), loading := false)
    else Logout(s).(loading := false)
  }

  /** `login` up to its `await`. */
  function BeginLogin(s: Session): (r: Session)
    ensures r == s.(loading := true)
  {
    s.(loading := true)
  }

  /** `login` after the credential check settled with `response`. */
  function FinishLogin(s: Session, response: Result<LoginResponse, string>): (r: Session)
    ensures !r.loading
    ensures response.Ok? ==> r.token == Some(response.value.token) && r.user == Some(response.value.user)
                             && r.location == Some(LandingPath(response.value.user.role))
    ensures response.Err? ==> r == s.(loading := false)
  {
    match response
    case Ok(resp) => Session(Some(resp.user), false, Some(resp.token), Some(LandingPath(resp.user.role)))
    case Err(_) => s.(loading := false)
  }

  /** `login(username, password)` from start to end, against the mock check. */
  function Login(s: Session, username: string, password: string): Session
  {
    FinishLogin(BeginLogin(s), MockAuthenticate(username, password))
  }

  /** A signed-in user always has a persisted token beside it. */
  predicate Consistent(s: Session)
  {
    s.user.Some? ==> Present(s.token)
  }

  // ===================== the provider object =====================

  class Store {
    var user: Option<User>
    var loading: bool
    var token: Option<string>
    var location: Option<string>

    function State(): Session
      reads this
    {
      Session(user, loading, token, location)
    }

    method Install(s: Session)
      modifies this
      ensures State() == s
    {
      user, loading, token, location := s.user, s.loading, s.token, s.location;
    }

    constructor (stored: Option<string>)
      ensures State() == Initial(stored)
    {
      user, loading, token, location := None, true, stored, None;
    }

    /** `isAuthenticated` */
    function IsAuthenticated(): (r: bool)
      reads this
      ensures r <==> user.Some?
    {
      user.Some?
    }

    method StartupCheck() returns (pending: bool)
      modifies this
      ensures pending == RestorePending(old(State()))
      ensures State() == StartRestore(old(State()))
    {
      pending := Present(token);
      Install(StartRestore(State()));
    }

    method FinishStartup(succeeded: bool)
      modifies this
      ensures State() == ResolveRestore(old(State()), succeeded)
    {
      Install(ResolveRestore(State(), succeeded));
    }

    method StartLogin()
      modifies this
      ensures State() == BeginLogin(old(State()))
    {
      loading := true;
    }

    /** The rest of `login`: rethrows a rejection, returns the response otherwise. */
    method CompleteLogin(response: Result<LoginResponse, string>) returns (r: Result<LoginResponse, string>)
      modifies this
      ensures r == response
      ensures State() == FinishLogin(old(State()), response)
    {
      Install(FinishLogin(State(), response));
      r := response;
    }

    method SignIn(username: string, password: string) returns (r: Result<LoginResponse, string>)
      modifies this
      ensures r == MockAuthenticate(username, password)
      ensures State() == Login(old(State()), username, password)
    {
      StartLogin();
      r := CompleteLogin(MockAuthenticate(username, password));
    }

    method SignOut()
      modifies this
      ensures State() == Logout(old(State()))
    {
      token := None;
      user := None;
      location := Some(LoginPath);
    }

    /** `navigate(path)`: only the navigation target changes. */
    method Navigate(path: string)
      modifies this
      ensures State() == old(State()).(location := Some(path))
    {
      location := Some(path);
    }
  }

  // ===================== properties =====================

  /** Startup with no stored token ends loading and leaves nobody signed in. */
  lemma NoTokenStartup(stored: Option<string>)
    requires !Present(stored)
    ensures var s := StartRestore(Initial(stored));
            !s.loading && s.user == None && s.RendersChildren()
  {
  }

  /** Startup with a token signs in the restored (cashier) identity, or logs out. */
  lemma TokenStartup(stored: Option<string>, succeeded: bool)
    requires Present(stored)
    ensures var s := ResolveRestore(StartRestore(Initial(stored)), succeeded);
            !s.loading
            && (succeeded ==> s.user == Some(RestoredUser) && s.user.value.role == CashierRole && s.token == stored)
            && (!succeeded ==> s.user == None && s.token == None && s.location == Some(LoginPath))
  {
  }

  /** `logout` twice gives the state `logout` once gives. */
  lemma LogoutIdempotent(s: Session)
    ensures Logout(Logout(s)) == Logout(s)
  {
  }

  /** The mock accepts exactly admin/password and then lands an owner on the dashboard. */
  lemma MockLoginOutcome(s: Session, username: string, password: string)
    ensures var r := Login(s, username, password);
            !r.loading
            && (username == "admin" && password == "password" ==>
                  r.token == Some(MockToken) && r.user == Some(LoggedInUser)
                  && r.user.value.role == OwnerRole && r.location == Some(DashboardPath))
            && (!(username == "admin" && password == "password") ==>
                  r.token == s.token && r.user == s.user && r.location == s.location)
  {
  }

  /** Every transition keeps a signed-in user next to a persisted token. */
  lemma {:induction false} TransitionsKeepConsistent(s: Session, response: Result<LoginResponse, string>, ok: bool)
    requires Consistent(s)
    ensures Consistent(StartRestore(s)) && Consistent(Logout(s)) && Consistent(BeginLogin(s))
    ensures RestorePending(s) ==> Consistent(ResolveRestore(s, ok))
    ensures response.Ok? && response.value.token != "" ==> Consistent(FinishLogin(s, response))
    ensures response.Err? ==> Consistent(FinishLogin(s, response))
  {
    assert Present(Some(MockToken));
  }
}

/**
 * contexts/AuthContext.tsx: the route guard of `useProtectedRoute` and the
 * session state `AuthProvider` keeps. The guard is a pure decision; the
 * provider is a class whose fields are the two state cells `user` and
 * `isLoading`, plus a log of the `router.replace` calls its handlers make.
 * Each handler is one atomic step; the authentication service's answer is
 * a function the handler calls with its arguments.
 */
module AuthContext {
  import opened Wrappers

  /** The account object the authentication service reports. */
  datatype Account = Account(uid: string, email: string, displayName: Option<string>)

  /** The two routes the guard and the handlers navigate to. */
  datatype Route = Login | Tabs {
    function Path(): string {
      match this
      case Login => "/(auth)/login"
      case Tabs => "/(tabs)"
    }

    /** The segments the router reports while it shows this route. */
    function Segments(): seq<string> {
      match this
      case Login => ["(auth)", "login"]
      case Tabs => ["(tabs)"]
    }
  }

  const AuthGroup := "(auth)"

  /** `segments[0] === '(auth)'`; an empty list has no first segment. */
  predicate InAuthGroup(segments: seq<string>) {
    |segments| > 0 && segments[0] == AuthGroup
  }

  /** The `useProtectedRoute` decision: where to `router.replace` to, if anywhere. */
  function ProtectedRouteRedirect(user: Option<Account>, segments: seq<string>): (r: Option<Route>)
    ensures user.None? && !InAuthGroup(segments) ==> r == Some(Login)
    ensures user.Some? && InAuthGroup(segments) ==> r == Some(Tabs)
    ensures r.None? <==> (user.Some? <==> !InAuthGroup(segments))
  {
    var inAuthGroup := InAuthGroup(segments);
    if user.None? && !inAuthGroup then Some(Login)
    else if user.Some? && inAuthGroup then Some(Tabs)
    else None
  }

  /** Once the redirect has happened, the guard is satisfied where it landed. */
  lemma RedirectSettles(user: Option<Account>, segments: seq<string>)
    requires ProtectedRouteRedirect(user, segments).Some?
    ensures ProtectedRouteRedirect(user, ProtectedRouteRedirect(user, segments).value.Segments()) == None
  {
  }

  /** The session part of the context value. */
  datatype Session = Session(user: Option<Account>, isLoading: bool)

  /** The context's default value, and the provider's initial state. */
  const DefaultSession := Session(None, true)

  class AuthProvider {
    var user: Option<Account>
    var isLoading: bool
    /** The `router.replace` calls of the handlers, oldest first. */
    var navigations: seq<Route>

    function State(): Session
      reads this
    {
      Session(user, isLoading)
    }

    constructor ()
      ensures State() == DefaultSession && navigations == []
    {
      user := None;
      isLoading := true;
      navigations := [];
    }

    /** The `listenToAuthState` callback. */
    method OnAuthStateChanged(reported: Option<Account>)
      modifies this
      ensures State() == Session(reported, false)
      ensures navigations == old(navigations)
    {
      user := reported;
      isLoading := false;
    }

    /** `loadUser`, given what `getCurrentUser()` returns. */
    method LoadUser(current: Option<Account>)
      modifies this
      ensures State() == Session(current, false)
      ensures navigations == old(navigations)
    {
      user := current;
      isLoading := false;
    }

    /** `handleSignIn`: on success the account becomes the user and the app
        goes to the tabs; on failure the error is rethrown and the user kept.
        Either way loading ends. */
    method SignIn(email: string, password: string, signIn: (string, string) -> Result<Account, string>)
      returns (outcome: Outcome<string>)
      modifies this
      ensures !isLoading
      ensures signIn(email, password).Success? ==>
        && outcome == Pass
        && user == Some(signIn(email, password).value)
        && navigations == old(navigations) + [Tabs]
      ensures signIn(email, password).Failure? ==>
        && outcome == Fail(signIn(email, password).error)
        && user == old(user)
        && navigations == old(navigations)
    {
      isLoading := true;
      match signIn(email, password) {
        case Success(account) =>
          user := Some(account);
          navigations := navigations + [Tabs];
          outcome := Pass;
        case Failure(e) =>
          outcome := Fail(e);
      }
      isLoading := false;
    }

    /** `handleSignUp`: as `SignIn`, with the account the sign-up creates. */
    method SignUp(email: string, password: string, displayName: string,
                  signUp: (string, string, string) -> Result<Account, string>)
      returns (outcome: Outcome<string>)
      modifies this
      ensures !isLoading
      ensures signUp(email, password, displayName).Success? ==>
        && outcome == Pass
        && user == Some(signUp(email, password, displayName).value)
        && navigations == old(navigations) + [Tabs]
      ensures signUp(email, password, displayName).Failure? ==>
        && outcome == Fail(signUp(email, password, displayName).error)
        && user == old(user)
        && navigations == old(navigations)
    {
      isLoading := true;
      match signUp(email, password, displayName) {
        case Success(account) =>
          user := Some(account);
          navigations := navigations + [Tabs];
          outcome := Pass;
        case Failure(e) =>
          outcome := Fail(e);
      }
      isLoading := false;
    }

    /** `handleSignOut`: on success the user is cleared and the app goes to
        the login page; on failure the error is rethrown and the user kept. */
    method SignOut(signOut: Outcome<string>) returns (outcome: Outcome<string>)
      modifies this
      ensures !isLoading
      ensures outcome == signOut
      ensures signOut.Pass? ==> user.None? && navigations == old(navigations) + [Login]
      ensures signOut.Fail? ==> user == old(user) && navigations == old(navigations)
    {
      isLoading := true;
      match signOut {
        case Pass =>
          user := None;
          navigations := navigations + [Login];
          outcome := Pass;
        case Fail(e) =>
          outcome := Fail(e);
      }
      isLoading := false;
    }
  }

  /** A client: after a successful sign-in the guard leaves the tabs alone,
      and after a successful sign-out it leaves the login page alone. */
  method SignInThenOut(account: Account)
  {
    var provider := new AuthProvider();
    provider.OnAuthStateChanged(None);
    assert ProtectedRouteRedirect(provider.user, Tabs.Segments()) == Some(Login);
    var accept := (e: string, p: string) => Success(account);
    var signedIn := provider.SignIn("a@b.c", "secret", accept);
    assert signedIn == Pass && provider.navigations == [Tabs];
    assert ProtectedRouteRedirect(provider.user, Tabs.Segments()) == None;
    var signedOut := provider.SignOut(Pass);
    assert provider.user == None && provider.navigations == [Tabs, Login];
    assert ProtectedRouteRedirect(provider.user, Login.Segments()) == None;
  }
}

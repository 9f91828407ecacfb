/** The session provider (contexts/auth-context.tsx): the signed-in user, a
    loading flag that starts raised, and the four session operations over
    the credential slot. Remote calls go through the gateway; what the
    server answered is each operation's `reply` input. */
module AuthContext {
  import opened Types
  import opened Strings
  import opened Token
  import opened ApiClient
  import opened Envelope
  import AuthService

  const OutsideProvider := "useAuth must be used within an AuthProvider"

  class AuthProvider {
    const api: Client
    var user: Option<User>
    var isLoading: bool

    /** The provider's first render. The mount effect that follows is a call
        to RefreshUser. */
    constructor (api: Client)
      ensures this.api == api && user == None && isLoading
    {
      this.api := api;
      user := None;
      isLoading := true;
    }

    /** Signed in means a user is loaded and the cookie holds a present
        token. Both are read afresh on each render, so clearing the token
        alone signs the user out. */
    predicate IsAuthenticated()
      reads this, api.jar
    {
      user.Some? && Present(api.jar.Token())
    }

    /** Without a token: no call, no user. With one: ask the server who is
        signed in; on any failure forget the user and drop the token. The
        flag is lowered in every case. */
    method RefreshUser(reply: Reply)
      modifies this, api, api.jar, api.window
      ensures !isLoading
      ensures !Present(old(api.jar.Token())) ==> user == None && api.State() == old(api.State())
      ensures Present(old(api.jar.Token())) ==>
        var res := UnwrapUser(Outcome(AuthService.CurrentUserCall, reply));
        var after := Exchange(old(api.State()), AuthService.CurrentUserCall, reply);
        && (res.Ok? ==> user == Some(res.value) && api.State() == after)
        && (res.Err? ==> user == None && api.State() == after.(cookies := Apply(old(api.jar.cookies), RemoveToken)))
      ensures IsAuthenticated() <==>
        Present(old(api.jar.Token())) && UnwrapUser(Outcome(AuthService.CurrentUserCall, reply)).Ok?
      ensures api.window.toasts == old(api.window.toasts)
    {
      var token := api.jar.Get();
      if !Present(token) {
        user := None;
        isLoading := false;
        return;
      }
      AuthService.AuthCallsAreSilent(SignupRequest("", "", ""), LoginRequest("", ""), reply);
      var response := AuthService.GetCurrentUser(api, reply);
      match response {
        case Ok(userData) =>
          user := Some(userData);
        case Err(_) =>
          user := None;
          api.jar.Remove();
      }
      isLoading := false;
    }

    /** Sign in: on success store the token, keep the user and go to the
        dashboard; on failure none of that happens and the error is passed
        on to the caller. */
    method Login(email: string, password: string, reply: Reply) returns (r: Result<(), Fault>)
      modifies this, api, api.jar, api.window
      ensures var call := AuthService.LoginCall(LoginRequest(email, password));
        var res := UnwrapAuth(Outcome(call, reply));
        var after := Exchange(old(api.State()), call, reply);
        && (r.Ok? <==> res.Ok?)
        && (res.Err? ==> r == Err(res.error) && user == old(user) && api.State() == after)
        && (res.Ok? ==>
              && user == Some(res.value.user)
              && api.State() == after.(cookies := Apply(old(api.jar.cookies), SetToken(res.value.token)), pathname := "/dashboard")
              && (IsAuthenticated() <==> res.value.token != ""))
      ensures api.window.toasts == old(api.window.toasts)
      ensures isLoading == old(isLoading)
    {
      AuthService.AuthCallsAreSilent(SignupRequest("", "", ""), LoginRequest(email, password), reply);
      var response := AuthService.Login(api, LoginRequest(email, password), reply);
      match response {
        case Err(e) =>
          r := Err(e);
        case Ok(auth) =>
          api.jar.Set(auth.token);
          user := Some(auth.user);
          api.window.Navigate("/dashboard");
          r := Ok(());
      }
    }

    /** Sign up: as Login, with the signup call. */
    method Signup(name: string, email: string, password: string, reply: Reply) returns (r: Result<(), Fault>)
      modifies this, api, api.jar, api.window
      ensures var call := AuthService.SignupCall(SignupRequest(name, email, password));
        var res := UnwrapAuth(Outcome(call, reply));
        var after := Exchange(old(api.State()), call, reply);
        && (r.Ok? <==> res.Ok?)
        && (res.Err? ==> r == Err(res.error) && user == old(user) && api.State() == after)
        && (res.Ok? ==>
              && user == Some(res.value.user)
              && api.State() == after.(cookies := Apply(old(api.jar.cookies), SetToken(res.value.token)), pathname := "/dashboard")
              && (IsAuthenticated() <==> res.value.token != ""))
      ensures api.window.toasts == old(api.window.toasts)
      ensures isLoading == old(isLoading)
    {
      AuthService.AuthCallsAreSilent(SignupRequest(name, email, password), LoginRequest("", ""), reply);
      var response := AuthService.Signup(api, SignupRequest(name, email, password), reply);
      match response {
        case Err(e) =>
          r := Err(e);
        case Ok(auth) =>
          api.jar.Set(auth.token);
          user := Some(auth.user);
          api.window.Navigate("/dashboard");
          r := Ok(());
      }
    }

    /** Sign out without waiting for the server. The logout request is
        started first, but the gateway's request interceptor only runs once
        the synchronous part has finished; by then the token is gone, so
        the request leaves without a bearer header. Its outcome is ignored. */
    method Logout(reply: Reply)
      modifies this, api, api.jar, api.window
      ensures user == None && !IsAuthenticated()
      ensures api.jar.cookies == Apply(old(api.jar.cookies), RemoveToken)
      ensures api.window.pathname == "/login"
      ensures api.window.toasts == old(api.window.toasts)
      ensures api.dispatched == old(api.dispatched) + [Decorate(AuthService.LogoutCall, None)]
      ensures "Authorization" !in api.dispatched[|api.dispatched| - 1].headers
      ensures api.State() == Exchange(old(api.State()).(cookies := Apply(old(api.jar.cookies), RemoveToken), pathname := "/login"),
                                      AuthService.LogoutCall, reply)
      ensures isLoading == old(isLoading)
    {
      SignedOutLogout(api.State(), reply);
      api.jar.Remove();
      user := None;
      api.window.Navigate("/login");
      PrefixIsContained("/login", "/login");
      AuthService.AuthCallsAreSilent(SignupRequest("", "", ""), LoginRequest("", ""), reply);
      var _ := AuthService.Logout(api, reply);
      assert Apply(Apply(old(api.jar.cookies), RemoveToken), RemoveToken) == Apply(old(api.jar.cookies), RemoveToken);
    }
  }

  /** A 401 handled by the gateway signs the session out on its next read:
      the provider still holds its user, but the shared token is gone. */
  method ExpiredSessionSignsOut(a: AuthProvider, err: HttpError)
    requires a.user.Some? && Unauthorized(err.kind)
    modifies a.api.jar, a.api.window
    ensures a.user == old(a.user) && a.user.Some?
    ensures !a.IsAuthenticated()
  {
    a.api.HandleError(err);
  }

  /** The logout exchange, once the token is gone and the location is
      "/login", sends the call without a token and changes nothing else,
      whatever the server answers. */
  lemma SignedOutLogout(g: Gateway, reply: Reply)
    ensures var out := g.(cookies := Apply(g.cookies, RemoveToken), pathname := "/login");
      Exchange(out, AuthService.LogoutCall, reply)
        == out.(dispatched := out.dispatched + [Decorate(AuthService.LogoutCall, None)])
  {
    AuthService.AuthCallsAreSilent(SignupRequest("", "", ""), LoginRequest("", ""), reply);
    PrefixIsContained("/login", "/login");
    var out := g.(cookies := Apply(g.cookies, RemoveToken), pathname := "/login");
    assert TokenOf(out.cookies) == None;
    assert Apply(out.cookies, RemoveToken) == out.cookies;
  }

  /** The useAuth guard: outside a provider it throws. */
  function UseAuth(context: Option<AuthProvider>): (r: Result<AuthProvider, string>)
    ensures r.Ok? <==> context.Some?
    ensures r.Ok? ==> r.value == context.value
    ensures r.Err? ==> r.error == OutsideProvider
  {
    if context.None? then Err(OutsideProvider) else Ok(context.value)
  }
}

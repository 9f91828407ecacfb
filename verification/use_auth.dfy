/** The standalone authentication hook (hooks/use-auth.ts). It keeps no user,
    only a loading flag raised for the length of each operation; failures
    are swallowed and reported as an absent result. */
module UseAuth {
  import opened Types
  import opened Token
  import opened ApiClient
  import opened Envelope
  import AuthService

  class AuthHook {
    const api: Client
    var isLoading: bool

    constructor (api: Client)
      ensures this.api == api && !isLoading
    {
      this.api := api;
      isLoading := false;
    }

    /** Store the token and go to the dashboard after a successful call, and
        return what the server sent; after a failure return nothing and
        leave the slot and location as the gateway left them. */
    method Signup(data: SignupRequest, reply: Reply) returns (r: Option<AuthResponse>)
      modifies this, api, api.jar, api.window
      ensures var call := AuthService.SignupCall(data);
        var res := UnwrapAuth(Outcome(call, reply));
        var after := Exchange(old(api.State()), call, reply);
        && (r.Some? <==> res.Ok?)
        && (res.Ok? ==>
              && r.value == res.value
              && api.State() == after.(cookies := Apply(old(api.jar.cookies), SetToken(res.value.token)), pathname := "/dashboard"))
        && (res.Err? ==> api.State() == after)
      ensures api.window.toasts == old(api.window.toasts)
      ensures !isLoading
    {
      isLoading := true;
      AuthService.AuthCallsAreSilent(data, LoginRequest("", ""), reply);
      var result := AuthService.Signup(api, data, reply);
      match result {
        case Ok(auth) =>
          api.jar.Set(auth.token);
          api.window.Navigate("/dashboard");
          r := Some(auth);
        case Err(_) =>
          r := None;
      }
      isLoading := false;
    }

    /** As Signup, with the login call. */
    method Login(data: LoginRequest, reply: Reply) returns (r: Option<AuthResponse>)
      modifies this, api, api.jar, api.window
      ensures var call := AuthService.LoginCall(data);
        var res := UnwrapAuth(Outcome(call, reply));
        var after := Exchange(old(api.State()), call, reply);
        && (r.Some? <==> res.Ok?)
        && (res.Ok? ==>
              && r.value == res.value
              && api.State() == after.(cookies := Apply(old(api.jar.cookies), SetToken(res.value.token)), pathname := "/dashboard"))
        && (res.Err? ==> api.State() == after)
      ensures api.window.toasts == old(api.window.toasts)
      ensures !isLoading
    {
      isLoading := true;
      AuthService.AuthCallsAreSilent(SignupRequest("", "", ""), data, reply);
      var result := AuthService.Login(api, data, reply);
      match result {
        case Ok(auth) =>
          api.jar.Set(auth.token);
          api.window.Navigate("/dashboard");
          r := Some(auth);
        case Err(_) =>
          r := None;
      }
      isLoading := false;
    }

    /** Wait for the logout call, whatever its outcome, then drop the token
        and go to the login screen. The request is decorated before the
        token is dropped, so it carries the bearer header when there was a
        token. */
    method Logout(reply: Reply)
      modifies this, api, api.jar, api.window
      ensures api.dispatched == old(api.dispatched) + [Decorate(AuthService.LogoutCall, old(api.jar.Token()))]
      ensures Present(old(api.jar.Token())) ==> "Authorization" in api.dispatched[|api.dispatched| - 1].headers
      ensures api.jar.cookies == Apply(old(api.jar.cookies), RemoveToken) && api.jar.Token() == None
      ensures api.window.pathname == "/login"
      ensures api.window.toasts == old(api.window.toasts)
      ensures !isLoading
    {
      isLoading := true;
      AuthService.AuthCallsAreSilent(SignupRequest("", "", ""), LoginRequest("", ""), reply);
      var _ := AuthService.Logout(api, reply);
      api.jar.Remove();
      isLoading := false;
      api.window.Navigate("/login");
    }
  }
}

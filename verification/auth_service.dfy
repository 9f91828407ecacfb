/** The authentication endpoints (services/auth.service.ts). Each operation
    is one call through the gateway followed by a projection of the success
    envelope; nothing is caught, so a rejected call fails with the gateway's
    own error. */
module AuthService {
  import opened Types
  import opened Strings
  import opened ApiClient
  import opened Envelope

  function SignupCall(data: SignupRequest): Call
  {
    Call(Post, "/auth/signup", SignupBody(data), None)
  }

  function LoginCall(data: LoginRequest): Call
  {
    Call(Post, "/auth/login", LoginBody(data), None)
  }

  const CurrentUserCall := Call(Get, "/auth/me", NoBody, None)

  const LogoutCall := Call(Post, "/auth/logout", NoBody, None)

  method Signup(api: Client, data: SignupRequest, reply: Reply) returns (r: Result<AuthResponse, Fault>)
    modifies api, api.jar, api.window
    ensures api.State() == Exchange(old(api.State()), SignupCall(data), reply)
    ensures r == UnwrapAuth(Outcome(SignupCall(data), reply))
  {
    var response := api.Send(SignupCall(data), reply);
    r := UnwrapAuth(response);
  }

  method Login(api: Client, data: LoginRequest, reply: Reply) returns (r: Result<AuthResponse, Fault>)
    modifies api, api.jar, api.window
    ensures api.State() == Exchange(old(api.State()), LoginCall(data), reply)
    ensures r == UnwrapAuth(Outcome(LoginCall(data), reply))
  {
    var response := api.Send(LoginCall(data), reply);
    r := UnwrapAuth(response);
  }

  method GetCurrentUser(api: Client, reply: Reply) returns (r: Result<User, Fault>)
    modifies api, api.jar, api.window
    ensures api.State() == Exchange(old(api.State()), CurrentUserCall, reply)
    ensures r == UnwrapUser(Outcome(CurrentUserCall, reply))
  {
    var response := api.Send(CurrentUserCall, reply);
    r := UnwrapUser(response);
  }

  method Logout(api: Client, reply: Reply) returns (r: Result<(), Fault>)
    modifies api, api.jar, api.window
    ensures api.State() == Exchange(old(api.State()), LogoutCall, reply)
    ensures r == UnwrapNothing(Outcome(LogoutCall, reply))
  {
    var response := api.Send(LogoutCall, reply);
    r := UnwrapNothing(response);
  }

  /** Every auth path lies under "/auth/", so the gateway shows no
      notification for any of these calls, whatever the reply. */
  lemma AuthCallsAreSilent(signup: SignupRequest, login: LoginRequest, reply: Reply)
    ensures Notices(SignupCall(signup), reply) == []
    ensures Notices(LoginCall(login), reply) == []
    ensures Notices(CurrentUserCall, reply) == []
    ensures Notices(LogoutCall, reply) == []
  {
    PrefixIsContained("/auth/signup", "/auth/");
    PrefixIsContained("/auth/login", "/auth/");
    PrefixIsContained("/auth/me", "/auth/");
    PrefixIsContained("/auth/logout", "/auth/");
  }

  /** What a resolved call served is what the operation returns. */
  lemma ServedDataIsReturned(status: int, message: string, auth: AuthResponse, user: User)
    requires 200 <= status < 300
    ensures forall d :: UnwrapAuth(Outcome(SignupCall(d), Received(status, Some(ApiSuccess(message, Some(AuthData(auth))))))) == Ok(auth)
    ensures UnwrapUser(Outcome(CurrentUserCall, Received(status, Some(ApiSuccess(message, Some(UserData(user))))))) == Ok(user)
    ensures UnwrapAuth(Outcome(CurrentUserCall, Received(status, Some(ApiSuccess(message, None))))) == Err(Malformed)
  {
  }
}

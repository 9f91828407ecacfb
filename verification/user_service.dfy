/** The account endpoints (services/user.service.ts): fixed paths under
    "/users/", one call per operation and a projection of the envelope. */
module UserService {
  import opened Types
  import opened Strings
  import opened ApiClient
  import opened Envelope
  import opened Browser

  const ProfileCall := Call(Get, "/users/profile", NoBody, None)

  function UpdateProfileCall(data: UpdateProfileRequest): Call
  {
    Call(Put, "/users/profile", UpdateProfileBody(data), None)
  }

  function UpdatePasswordCall(data: UpdatePasswordRequest): Call
  {
    Call(Put, "/users/password", UpdatePasswordBody(data), None)
  }

  const DeleteAccountCall := Call(Delete, "/users/account", NoBody, None)

  method GetProfile(api: Client, reply: Reply) returns (r: Result<User, Fault>)
    modifies api, api.jar, api.window
    ensures api.State() == Exchange(old(api.State()), ProfileCall, reply)
    ensures r == UnwrapUser(Outcome(ProfileCall, reply))
  {
    var response := api.Send(ProfileCall, reply);
    r := UnwrapUser(response);
  }

  method UpdateProfile(api: Client, data: UpdateProfileRequest, reply: Reply) returns (r: Result<User, Fault>)
    modifies api, api.jar, api.window
    ensures api.State() == Exchange(old(api.State()), UpdateProfileCall(data), reply)
    ensures r == UnwrapUser(Outcome(UpdateProfileCall(data), reply))
  {
    var response := api.Send(UpdateProfileCall(data), reply);
    r := UnwrapUser(response);
  }

  method UpdatePassword(api: Client, data: UpdatePasswordRequest, reply: Reply) returns (r: Result<(), Fault>)
    modifies api, api.jar, api.window
    ensures api.State() == Exchange(old(api.State()), UpdatePasswordCall(data), reply)
    ensures r == UnwrapNothing(Outcome(UpdatePasswordCall(data), reply))
  {
    var response := api.Send(UpdatePasswordCall(data), reply);
    r := UnwrapNothing(response);
  }

  method DeleteAccount(api: Client, reply: Reply) returns (r: Result<(), Fault>)
    modifies api, api.jar, api.window
    ensures api.State() == Exchange(old(api.State()), DeleteAccountCall, reply)
    ensures r == UnwrapNothing(Outcome(DeleteAccountCall, reply))
  {
    var response := api.Send(DeleteAccountCall, reply);
    r := UnwrapNothing(response);
  }

  /** "/users/" is not "/user/": no account path falls in the gateway's
      user-endpoint exemption (nor in the auth one). */
  lemma UserPathsAreNotExempt()
    ensures forall p | p in {"/users/profile", "/users/password", "/users/account"} ::
      !Contains(p, "/user/") && !Contains(p, "/auth/")
  {
    NoDelimitedMatch("/users/profile", "/user/");
    NoDelimitedMatch("/users/password", "/user/");
    NoDelimitedMatch("/users/account", "/user/");
    NoDelimitedMatch("/users/profile", "/auth/");
    NoDelimitedMatch("/users/password", "/auth/");
    NoDelimitedMatch("/users/account", "/auth/");
  }

  /** So a successful profile update, password change or account deletion
      is shown as a success notification by the gateway, and reading the
      profile is not. */
  lemma AccountMutationsNotify(profile: UpdateProfileRequest, password: UpdatePasswordRequest,
                               status: int, message: string, payload: Option<Payload>)
    requires 200 <= status < 300
    ensures var reply := Received(status, Some(ApiSuccess(message, payload)));
      var notice := [Plain(SuccessToast, if message != "" then message else OperationSuccessful)];
      && Notices(UpdateProfileCall(profile), reply) == notice
      && Notices(UpdatePasswordCall(password), reply) == notice
      && Notices(DeleteAccountCall, reply) == notice
      && Notices(ProfileCall, reply) == []
  {
    UserPathsAreNotExempt();
  }

  /** What a resolved call served is what the operation returns. */
  lemma ServedDataIsReturned(status: int, message: string, user: User, profile: UpdateProfileRequest)
    requires 200 <= status < 300
    ensures UnwrapUser(Outcome(UpdateProfileCall(profile), Received(status, Some(ApiSuccess(message, Some(UserData(user))))))) == Ok(user)
    ensures UnwrapNothing(Outcome(DeleteAccountCall, Received(status, None))) == Ok(())
  {
  }
}

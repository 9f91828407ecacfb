/** The profile hook (hooks/use-user.ts): a cached copy of the account, a
    loading flag and a flag that stays raised until the first profile
    fetch has finished. No operation rejects. */
module UseUser {
  import opened Types
  import opened ApiClient
  import opened Envelope
  import UserService

  class ProfileCache {
    const api: Client
    var user: Option<User>
    var isLoading: bool
    var isInitialLoading: bool

    /** The hook's first render; the mount effect is a call to FetchProfile. */
    constructor (api: Client)
      ensures this.api == api && user == None && !isLoading && isInitialLoading
    {
      this.api := api;
      user := None;
      isLoading := false;
      isInitialLoading := true;
    }

    /** The cached user becomes the server's, or is cleared on failure; the
        initial-loading flag is lowered in both cases. */
    method FetchProfile(reply: Reply) returns (r: Option<User>)
      modifies this, api, api.jar, api.window
      ensures var res := UnwrapUser(Outcome(UserService.ProfileCall, reply));
        && r == (if res.Ok? then Some(res.value) else None)
        && user == r
      ensures api.State() == Exchange(old(api.State()), UserService.ProfileCall, reply)
      ensures !isLoading && !isInitialLoading
    {
      isLoading := true;
      var result := UserService.GetProfile(api, reply);
      match result {
        case Ok(userData) =>
          user := Some(userData);
          r := Some(userData);
        case Err(_) =>
          user := None;
          r := None;
      }
      isLoading := false;
      isInitialLoading := false;
    }

    /** The cached user becomes the updated one; a failure keeps the old. */
    method UpdateProfile(data: UpdateProfileRequest, reply: Reply) returns (r: Option<User>)
      modifies this, api, api.jar, api.window
      ensures var res := UnwrapUser(Outcome(UserService.UpdateProfileCall(data), reply));
        && r == (if res.Ok? then Some(res.value) else None)
        && user == (if res.Ok? then r else old(user))
      ensures api.State() == Exchange(old(api.State()), UserService.UpdateProfileCall(data), reply)
      ensures !isLoading && isInitialLoading == old(isInitialLoading)
    {
      isLoading := true;
      var result := UserService.UpdateProfile(api, data, reply);
      match result {
        case Ok(updatedUser) =>
          user := Some(updatedUser);
          r := Some(updatedUser);
        case Err(_) =>
          r := None;
      }
      isLoading := false;
    }

    /** Sends only the two passwords; `true` exactly when the call succeeded. */
    method UpdatePassword(currentPassword: string, newPassword: string, reply: Reply) returns (r: bool)
      modifies this, api, api.jar, api.window
      ensures var call := UserService.UpdatePasswordCall(UpdatePasswordRequest(currentPassword, newPassword));
        && (r <==> Outcome(call, reply).Ok?)
        && api.State() == Exchange(old(api.State()), call, reply)
      ensures user == old(user) && !isLoading && isInitialLoading == old(isInitialLoading)
    {
      isLoading := true;
      var result := UserService.UpdatePassword(api, UpdatePasswordRequest(currentPassword, newPassword), reply);
      r := result.Ok?;
      isLoading := false;
    }

    /** `true` exactly when the deletion succeeded; the cache is untouched. */
    method DeleteAccount(reply: Reply) returns (r: bool)
      modifies this, api, api.jar, api.window
      ensures (r <==> Outcome(UserService.DeleteAccountCall, reply).Ok?)
      ensures api.State() == Exchange(old(api.State()), UserService.DeleteAccountCall, reply)
      ensures user == old(user) && !isLoading && isInitialLoading == old(isInitialLoading)
    {
      isLoading := true;
      var result := UserService.DeleteAccount(api, reply);
      r := result.Ok?;
      isLoading := false;
    }
  }
}

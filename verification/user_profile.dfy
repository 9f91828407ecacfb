/** The profile screen (components/dashboard/user-profile.tsx): the avatar
    initials, the prefilled profile form, and the three submit handlers
    with their busy flags and notifications. */
module UserProfile {
  import opened Types
  import opened Strings
  import opened Token
  import opened Browser
  import opened ApiClient
  import opened Envelope
  import opened Validations
  import opened AuthContext
  import UserService
  import AuthService

  // ------------------------------------------------------------- initials

  /** `n[0]` of one piece, rendered by join: nothing for an empty piece. */
  function Head(piece: string): string
  {
    if piece == "" then "" else [piece[0]]
  }

  function Heads(pieces: seq<string>): seq<string>
    decreases |pieces|
  {
    if pieces == [] then [] else [Head(pieces[0])] + Heads(pieces[1..])
  }

  /** The avatar fallback: the first character of every piece between
      single spaces, joined, upper-cased and cut to at most two. */
  function Initials(name: string): (r: string)
    ensures |r| <= 2
  {
    var letters := ToUpper(Join(Heads(Split(name, ' ')), ""));
    letters[..if |letters| < 2 then |letters| else 2]
  }

  /** The characters that begin a word: not a space, and at the start or
      right after a space (`atStart` says whether the previous character
      was a space or there was none). */
  function WordStarts(s: string, atStart: bool): string
    decreases |s|
  {
    if s == [] then ""
    else if s[0] == ' ' then WordStarts(s[1..], true)
    else (if atStart then [s[0]] else "") + WordStarts(s[1..], false)
  }

  lemma JoinWithoutSeparator(a: string, xs: seq<string>)
    ensures Join([a] + xs, "") == a + Join(xs, "")
  {
    if xs != [] {
      assert ([a] + xs)[1..] == xs;
    }
  }

  lemma HeadsOfCons(x: string, xs: seq<string>)
    ensures Heads([x] + xs) == [Head(x)] + Heads(xs)
  {
    assert ([x] + xs)[1..] == xs;
  }

  /** The pipeline keeps the first letter of every word, in order; empty
      pieces from leading or repeated spaces contribute nothing. */
  lemma {:induction false} HeadsAreWordStarts(s: string)
    ensures Join(Heads(Split(s, ' ')), "") == WordStarts(s, true)
    ensures Join(Heads(Split(s, ' ')[1..]), "") == WordStarts(s, false)
    decreases |s|
  {
    if s != [] {
      var rest := Split(s[1..], ' ');
      HeadsAreWordStarts(s[1..]);
      if s[0] == ' ' {
        assert Split(s, ' ') == [""] + rest;
        HeadsOfCons("", rest);
        JoinWithoutSeparator("", Heads(rest));
        assert Split(s, ' ')[1..] == rest;
      } else {
        var first := [s[0]] + rest[0];
        assert Split(s, ' ') == [first] + rest[1..];
        HeadsOfCons(first, rest[1..]);
        JoinWithoutSeparator(Head(first), Heads(rest[1..]));
        assert Head(first) == [s[0]];
        assert Split(s, ' ')[1..] == rest[1..];
      }
    }
  }

  lemma InitialsAreWordStarts(name: string)
    ensures var starts := ToUpper(WordStarts(name, true));
      Initials(name) == starts[..if |starts| < 2 then |starts| else 2]
  {
    HeadsAreWordStarts(name);
  }

  /** The word starts of "bo cy", one character at a time. */
  lemma WordStartsOfTwoWords()
    ensures WordStarts("bo cy", true) == "bc"
  {
    var w := "bo cy";
    assert w[1..] == "o cy" && w[2..] == " cy" && w[3..] == "cy" && w[3..][1..] == "y";
    assert WordStarts("y", false) == "";
    assert WordStarts("cy", true) == "c";
    assert WordStarts(" cy", false) == "c";
    assert WordStarts("o cy", false) == "c";
  }

  /** The word starts of "al  bo cy": the doubled space adds nothing. */
  lemma WordStartsOfThreeWords()
    ensures WordStarts("al  bo cy", true) == "abc"
  {
    var w := "al  bo cy";
    assert w[1..] == "l  bo cy" && w[2..] == "  bo cy" && w[3..] == " bo cy" && w[4..] == "bo cy";
    WordStartsOfTwoWords();
    assert WordStarts(" bo cy", true) == "bc";
    assert WordStarts("  bo cy", false) == "bc";
    assert WordStarts("l  bo cy", false) == "bc";
  }

  lemma UpperPrefix()
    ensures ToUpper("abc")[..2] == "AB"
    ensures ToUpper("x") == "X"
  {
    var up := ToUpper("abc");
    assert up[0] == 'A' && up[1] == 'B';
    assert ToUpper("x")[0] == 'X';
  }

  /** Only the first two words count, and leading or doubled spaces are
      skipped. */
  lemma InitialsExamples()
    ensures Initials("al  bo cy") == "AB"
    ensures Initials(" x") == "X"
  {
    InitialsAreWordStarts("al  bo cy");
    WordStartsOfThreeWords();
    UpperPrefix();
    InitialsAreWordStarts(" x");
    assert " x"[1..] == "x";
    assert WordStarts(" x", true) == "x";
  }

  // ------------------------------------------------------------- prefill

  /** The profile form as filled in from the signed-in user. */
  function Prefill(user: User): (form: ProfileForm)
    ensures form.name == Some(user.name)
    ensures form.bio == Some(user.bio.GetOr("")) && form.avatar == Some(user.avatar.GetOr(""))
  {
    ProfileForm(Some(user.name), Some(user.bio.GetOr("")), Some(user.avatar.GetOr("")))
  }

  /** A prefilled form passes the profile schema exactly when the stored
      name and bio are within bounds and the avatar is missing, empty or a
      URL: a missing avatar is filled in as "", which the schema accepts. */
  lemma PrefillValidity(user: User, isUrl: string -> bool)
    ensures ParseProfile(Prefill(user), isUrl).Valid? <==>
      2 <= |user.name| <= 50 && |user.bio.GetOr("")| <= 200
      && (user.avatar.None? || user.avatar.value == "" || isUrl(user.avatar.value))
  {
  }

  // ------------------------------------------------------------ handlers

  /** The message of the error response's body when there is a non-empty
      one, otherwise the fallback. */
  function FailureDetail(f: Fault, fallback: string): (d: string)
    ensures d != "" || fallback == ""
    ensures f.Rejected? && f.error.kind.ResponseError? && ServerMessage(f.error.kind.data).Some?
      ==> d == f.error.kind.data.value.message
    ensures !(f.Rejected? && f.error.kind.ResponseError? && ServerMessage(f.error.kind.data).Some?) ==> d == fallback
  {
    if f.Rejected? && f.error.kind.ResponseError? then ServerMessage(f.error.kind.data).GetOr(fallback)
    else fallback
  }

  const ProfileUpdated := Toast(SuccessToast, "Profile updated", Some("Your profile has been successfully updated."))
  const PasswordUpdated := Toast(SuccessToast, "Password updated", Some("Your password has been changed successfully."))
  const AccountDeleted := Toast(SuccessToast, "Account deleted", Some("Your account has been permanently deleted."))

  function UpdateFailed(f: Fault, fallback: string): Toast
  {
    Toast(ErrorToast, "Update failed", Some(FailureDetail(f, fallback)))
  }

  function DeletionFailed(f: Fault): Toast
  {
    Toast(ErrorToast, "Deletion failed", Some(FailureDetail(f, "Please try again.")))
  }

  class ProfileScreen {
    const auth: AuthProvider
    var isEditingProfile: bool
    var isChangingPassword: bool
    var isDeleting: bool
    /** The password form's values; `None` once it has been reset. */
    var passwordEntry: Option<PasswordChangeForm>

    constructor (auth: AuthProvider)
      ensures this.auth == auth && !isEditingProfile && !isChangingPassword && !isDeleting
      ensures passwordEntry == None
    {
      this.auth := auth;
      isEditingProfile := false;
      isChangingPassword := false;
      isDeleting := false;
      passwordEntry := None;
    }

    /** Update, then wait for the session to reload the user, then confirm.
        The gateway has already announced the successful update on its own,
        because "/users/profile" is not exempt, so a success shows two
        notifications. A failure shows the server's message or a default. */
    method HandleProfileUpdate(data: UpdateProfileRequest, reply: Reply, refreshReply: Reply)
      modifies this, auth, auth.api, auth.api.jar, auth.api.window
      ensures var call := UserService.UpdateProfileCall(data);
        var res := UnwrapUser(Outcome(call, reply));
        auth.api.window.toasts == old(auth.api.window.toasts) + Notices(call, reply)
          + [if res.Ok? then ProfileUpdated else UpdateFailed(res.error, "Please try again.")]
      ensures var call := UserService.UpdateProfileCall(data);
        var res := UnwrapUser(Outcome(call, reply));
        var after := Exchange(old(auth.api.State()), call, reply);
        res.Err? ==>
          && auth.user == old(auth.user) && auth.isLoading == old(auth.isLoading)
          && auth.api.State() == after.(toasts := after.toasts + [UpdateFailed(res.error, "Please try again.")])
      ensures var call := UserService.UpdateProfileCall(data);
        var after := Exchange(old(auth.api.State()), call, reply);
        var me := UnwrapUser(Outcome(AuthService.CurrentUserCall, refreshReply));
        var refreshed := Exchange(after, AuthService.CurrentUserCall, refreshReply);
        UnwrapUser(Outcome(call, reply)).Ok? ==>
          && !auth.isLoading
          && (!Present(old(auth.api.jar.Token())) ==>
                auth.user == None && auth.api.State() == after.(toasts := after.toasts + [ProfileUpdated]))
          && (Present(old(auth.api.jar.Token())) && me.Ok? ==>
                auth.user == Some(me.value) && auth.api.State() == refreshed.(toasts := refreshed.toasts + [ProfileUpdated]))
          && (Present(old(auth.api.jar.Token())) && me.Err? ==>
                && auth.user == None
                && auth.api.State() == refreshed.(cookies := Apply(after.cookies, RemoveToken), toasts := refreshed.toasts + [ProfileUpdated]))
      ensures !isEditingProfile && isChangingPassword == old(isChangingPassword) && isDeleting == old(isDeleting)
      ensures passwordEntry == old(passwordEntry)
    {
      isEditingProfile := true;
      var updated := UserService.UpdateProfile(auth.api, data, reply);
      match updated {
        case Ok(u) =>
          auth.RefreshUser(refreshReply);
          auth.api.window.Notify(ProfileUpdated);
        case Err(f) =>
          auth.api.window.Notify(UpdateFailed(f, "Please try again."));
      }
      isEditingProfile := false;
    }

    /** Typing into the password form: the three fields now hold `form`. */
    method EnterPasswords(form: PasswordChangeForm)
      modifies this
      ensures passwordEntry == Some(form)
      ensures isEditingProfile == old(isEditingProfile) && isChangingPassword == old(isChangingPassword)
      ensures isDeleting == old(isDeleting)
    {
      passwordEntry := Some(form);
    }

    /** Submit the entered form: send only the current and new password;
        reset the form and confirm on success, keep it and show the reason
        on failure. */
    method HandlePasswordUpdate(data: PasswordChangeForm, reply: Reply)
      requires passwordEntry == Some(data)
      modifies this, auth.api, auth.api.jar, auth.api.window
      ensures var call := UserService.UpdatePasswordCall(UpdatePasswordRequest(data.currentPassword, data.newPassword));
        var res := UnwrapNothing(Outcome(call, reply));
        var after := Exchange(old(auth.api.State()), call, reply);
        && (res.Ok? ==> passwordEntry == None && auth.api.State() == after.(toasts := after.toasts + [PasswordUpdated]))
        && (res.Err? ==>
              && passwordEntry == Some(data)
              && auth.api.State() == after.(toasts := after.toasts + [UpdateFailed(res.error, "Please check your current password.")]))
      ensures !isChangingPassword && isEditingProfile == old(isEditingProfile) && isDeleting == old(isDeleting)
    {
      isChangingPassword := true;
      var result := UserService.UpdatePassword(auth.api, UpdatePasswordRequest(data.currentPassword, data.newPassword), reply);
      match result {
        case Ok(_) =>
          passwordEntry := None;
          auth.api.window.Notify(PasswordUpdated);
        case Err(f) =>
          auth.api.window.Notify(UpdateFailed(f, "Please check your current password."));
      }
      isChangingPassword := false;
    }

    /** Delete the account; only after a successful deletion confirm and
        sign out. */
    method HandleDeleteAccount(reply: Reply, logoutReply: Reply)
      modifies this, auth, auth.api, auth.api.jar, auth.api.window
      ensures var call := UserService.DeleteAccountCall;
        var res := UnwrapNothing(Outcome(call, reply));
        var after := Exchange(old(auth.api.State()), call, reply);
        && (res.Ok? ==>
              && auth.user == None && !auth.IsAuthenticated()
              && auth.api.jar.cookies == Apply(old(auth.api.jar.cookies), RemoveToken)
              && auth.api.window.pathname == "/login"
              && auth.api.window.toasts == after.toasts + [AccountDeleted]
              && auth.api.State() == Exchange(
                   after.(cookies := Apply(after.cookies, RemoveToken), pathname := "/login",
                          toasts := after.toasts + [AccountDeleted]),
                   AuthService.LogoutCall, logoutReply)
              && "Authorization" !in auth.api.dispatched[|auth.api.dispatched| - 1].headers)
        && (res.Err? ==>
              && auth.user == old(auth.user)
              && auth.api.State() == after.(toasts := after.toasts + [DeletionFailed(res.error)]))
      ensures auth.isLoading == old(auth.isLoading)
      ensures !isDeleting && isEditingProfile == old(isEditingProfile) && isChangingPassword == old(isChangingPassword)
      ensures passwordEntry == old(passwordEntry)
    {
      isDeleting := true;
      var result := UserService.DeleteAccount(auth.api, reply);
      match result {
        case Ok(_) =>
          auth.api.window.Notify(AccountDeleted);
          auth.Logout(logoutReply);
        case Err(f) =>
          auth.api.window.Notify(DeletionFailed(f));
      }
      isDeleting := false;
    }
  }
}

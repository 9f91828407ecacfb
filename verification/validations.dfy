/** The client-side form schemas (lib/validations.ts).

    Each schema is a function from the raw form values to `Parsed`: either the
    parsed (trimmed, lower-cased) value or every issue found, in the order in
    which the schema reports them. String length checks do not stop the
    parse, and a refinement still runs on input that already has issues, so
    issues accumulate. The e-mail and URL format checks are passed in as
    predicates: their regular expressions belong to the validation library. */
module Validations {
  import opened Types
  import opened Strings

  datatype Issue = Issue(path: string, message: string)

  datatype Parsed<T> = Valid(value: T) | Invalid(issues: seq<Issue>)

  function Check<T>(issues: seq<Issue>, value: T): (r: Parsed<T>)
    ensures r.Valid? <==> |issues| == 0
    ensures r.Valid? ==> r.value == value
    ensures r.Invalid? ==> r.issues == issues
  {
    if |issues| == 0 then Valid(value) else Invalid(issues)
  }

  /** One issue when the check fails, none when it passes. */
  function Flag(bad: bool, path: string, message: string): (r: seq<Issue>)
    ensures |r| == (if bad then 1 else 0)
    ensures forall k | 0 <= k < |r| :: r[k] == Issue(path, message)
  {
    if bad then [Issue(path, message)] else []
  }

  /** The characters of the class `[!@#$%^&*(),.?":{}|<>]`. */
  const SpecialChars := "!@#$%^&*(),.?\":{}|<>"

  predicate HasUpper(s: string) { exists k | 0 <= k < |s| :: 'A' <= s[k] <= 'Z' }

  predicate HasLower(s: string) { exists k | 0 <= k < |s| :: 'a' <= s[k] <= 'z' }

  predicate HasDigit(s: string) { exists k | 0 <= k < |s| :: '0' <= s[k] <= '9' }

  predicate HasSpecial(s: string) { exists k | 0 <= k < |s| :: s[k] in SpecialChars }

  /** The backend's strength rule, stated on its own. */
  predicate StrongPassword(p: string)
  {
    |p| >= 6 && HasUpper(p) && HasLower(p) && HasDigit(p) && HasSpecial(p)
  }

  /** The message of a failing check, nothing for a passing one. */
  function Note(bad: bool, message: string): (r: seq<string>)
    ensures |r| == (if bad then 1 else 0)
  {
    if bad then [message] else []
  }

  /** Every message reported on one field. */
  function OnField(path: string, messages: seq<string>): (issues: seq<Issue>)
    ensures |issues| == |messages|
    ensures forall k | 0 <= k < |issues| :: issues[k] == Issue(path, messages[k])
  {
    seq(|messages|, k requires 0 <= k < |messages| => Issue(path, messages[k]))
  }

  /** passwordValidation's messages: two length checks, then four
      character-class refinements, in that order. */
  function PasswordMessages(p: string): (messages: seq<string>)
    ensures |messages| == 0 <==> StrongPassword(p)
  {
    Note(|p| < 1, "Password is required")
    + Note(|p| < 6, "Password must be at least 6 characters long")
    + Note(!HasUpper(p), "Password must contain at least one uppercase letter")
    + Note(!HasLower(p), "Password must contain at least one lowercase letter")
    + Note(!HasDigit(p), "Password must contain at least one number")
    + Note(!HasSpecial(p), "Password must contain at least one special character (!@#$%^&*(),.?\":{}|<>)")
  }

  /** passwordValidation applied to the field `path`. */
  function PasswordIssues(path: string, p: string): (issues: seq<Issue>)
    ensures |issues| == 0 <==> StrongPassword(p)
    ensures forall k | 0 <= k < |issues| :: issues[k].path == path
  {
    OnField(path, PasswordMessages(p))
  }

  lemma WeakSample()
    ensures |"abcdef1!"| >= 6 && !HasUpper("abcdef1!") && HasLower("abcdef1!")
    ensures HasDigit("abcdef1!") && HasSpecial("abcdef1!")
  {
    var weak := "abcdef1!";
    forall k | 0 <= k < |weak| ensures !('A' <= weak[k] <= 'Z') {
    }
    assert 'a' <= weak[0] <= 'z' && '0' <= weak[6] <= '9' && weak[7] in SpecialChars;
  }

  /** "abcdef1!" lacks only an upper-case letter; "Abcdef1!" meets every rule. */
  lemma PasswordExamples()
    ensures PasswordIssues("password", "abcdef1!")
         == [Issue("password", "Password must contain at least one uppercase letter")]
    ensures PasswordIssues("password", "Abcdef1!") == []
  {
    WeakSample();
    StrongSample();
    var upper := "Password must contain at least one uppercase letter";
    var messages := PasswordMessages("abcdef1!");
    assert messages == [] + [] + [upper] + [] + [] + [];
    var issues := PasswordIssues("password", "abcdef1!");
    assert |issues| == 1 && issues[0] == Issue("password", upper);
  }

  lemma StrongSample()
    ensures StrongPassword("Abcdef1!")
  {
    var p := "Abcdef1!";
    assert 'A' <= p[0] <= 'Z' && 'a' <= p[1] <= 'z';
    assert '0' <= p[6] <= '9' && p[7] in SpecialChars;
  }

  // ---------------------------------------------------------------- login

  datatype LoginForm = LoginForm(email: string, password: string)

  /** loginSchema: a non-empty, well-formed e-mail and a non-empty password;
      the strength rules are not applied and nothing is transformed. */
  function ParseLogin(form: LoginForm, isEmail: string -> bool): (r: Parsed<LoginRequest>)
    ensures r.Valid? <==> |form.email| >= 1 && isEmail(form.email) && |form.password| >= 1
    ensures r.Valid? ==> r.value == LoginRequest(form.email, form.password)
  {
    Check(
      Flag(|form.email| < 1, "email", "Email is required")
      + Flag(!isEmail(form.email), "email", "Please provide a valid email address")
      + Flag(|form.password| < 1, "password", "Password is required"),
      LoginRequest(form.email, form.password))
  }

  /** A one-character password that signup would refuse is a valid login. */
  lemma LoginIgnoresStrength(email: string, isEmail: string -> bool)
    requires |email| >= 1 && isEmail(email)
    ensures ParseLogin(LoginForm(email, "a"), isEmail) == Valid(LoginRequest(email, "a"))
    ensures !StrongPassword("a")
  {
  }

  // --------------------------------------------------------------- signup

  datatype SignupForm = SignupForm(name: string, email: string, password: string)

  /** signupSchema: a name of 2..50 characters, a well-formed e-mail and a
      strong password. The name is trimmed and the e-mail lower-cased and
      trimmed after the checks, which therefore see the raw strings. */
  function ParseSignup(form: SignupForm, isEmail: string -> bool): (r: Parsed<SignupRequest>)
    ensures r.Valid? <==>
      2 <= |form.name| <= 50 && |form.email| >= 1 && isEmail(form.email) && StrongPassword(form.password)
    ensures r.Valid? ==> r.value == SignupRequest(Trim(form.name), Trim(ToLower(form.email)), form.password)
  {
    Check(
      Flag(|form.name| < 1, "name", "Name is required")
      + Flag(|form.name| < 2, "name", "Name must be at least 2 characters")
      + Flag(|form.name| > 50, "name", "Name cannot exceed 50 characters")
      + Flag(|form.email| < 1, "email", "Email is required")
      + Flag(!isEmail(form.email), "email", "Please provide a valid email address")
      + PasswordIssues("password", form.password),
      SignupRequest(Trim(form.name), Trim(ToLower(form.email)), form.password))
  }

  lemma TrimSample()
    ensures Trim("  a") == "a"
  {
    assert "  a"[1..] == " a" && " a"[1..] == "a";
    assert TrimStart("a") == "a" && TrimEnd("a") == "a";
    assert TrimStart("  a") == TrimStart(" a") == "a";
  }

  /** The length check sees the raw name: "  a" is accepted and becomes "a". */
  lemma SignupChecksBeforeTrim(email: string, isEmail: string -> bool)
    requires |email| >= 1 && isEmail(email)
    ensures ParseSignup(SignupForm("  a", email, "Abcdef1!"), isEmail).Valid?
    ensures ParseSignup(SignupForm("  a", email, "Abcdef1!"), isEmail).value.name == "a"
  {
    StrongSample();
    TrimSample();
  }

  // ---------------------------------------------------------------- tasks

  /** The message the validation library gives for a value outside an enum. */
  const EnumMessage := "Invalid enum value"

  /** The raw task form; enum fields arrive as strings. */
  datatype TaskForm = TaskForm(
    title: string,
    description: Option<string>,
    status: Option<string>,
    priority: Option<string>,
    dueDate: Option<string>,
    tags: Option<seq<string>>)

  function TrimOpt(s: Option<string>): Option<string>
  {
    if s.Some? then Some(Trim(s.value)) else None
  }

  predicate StatusOk(v: Option<string>) { v.None? || ParseStatus(v.value).Some? }

  predicate PriorityOk(v: Option<string>) { v.None? || ParsePriority(v.value).Some? }

  function StatusOf(v: Option<string>): Option<TaskStatus>
  {
    if v.Some? then ParseStatus(v.value) else None
  }

  function PriorityOf(v: Option<string>): Option<TaskPriority>
  {
    if v.Some? then ParsePriority(v.value) else None
  }

  function DescriptionIssues(d: Option<string>): seq<Issue>
  {
    Flag(d.Some? && |d.value| > 500, "description", "Description cannot exceed 500 characters")
  }

  function EnumIssues(status: Option<string>, priority: Option<string>): seq<Issue>
  {
    Flag(!StatusOk(status), "status", EnumMessage) + Flag(!PriorityOk(priority), "priority", EnumMessage)
  }

  /** createTaskSchema: a title of 3..100 characters, an optional description
      of at most 500, and status/priority (when given) inside their enums. */
  function ParseCreateTask(form: TaskForm): (r: Parsed<CreateTaskRequest>)
    ensures r.Valid? <==>
      && 3 <= |form.title| <= 100
      && (form.description.Some? ==> |form.description.value| <= 500)
      && StatusOk(form.status) && PriorityOk(form.priority)
    ensures r.Valid? ==>
      && r.value.title == Trim(form.title)
      && r.value.description == TrimOpt(form.description)
      && r.value.status.Some? == form.status.Some?
      && (form.status.Some? ==> StatusName(r.value.status.value) == form.status.value)
      && r.value.priority.Some? == form.priority.Some?
      && (form.priority.Some? ==> PriorityName(r.value.priority.value) == form.priority.value)
      && r.value.dueDate == form.dueDate && r.value.tags == form.tags
  {
    Check(
      Flag(|form.title| < 1, "title", "Task title is required")
      + Flag(|form.title| < 3, "title", "Title must be at least 3 characters")
      + Flag(|form.title| > 100, "title", "Title cannot exceed 100 characters")
      + DescriptionIssues(form.description)
      + EnumIssues(form.status, form.priority),
      CreateTaskRequest(Trim(form.title), TrimOpt(form.description), StatusOf(form.status),
                        PriorityOf(form.priority), form.dueDate, form.tags))
  }

  function TitleOnly(title: string): TaskForm
  {
    TaskForm(title, None, None, None, None, None)
  }

  /** "ab" is refused, "abc" accepted; a title of three spaces passes the
      length check and is stored empty, because trimming comes last. */
  lemma TitleExamples()
    ensures ParseCreateTask(TitleOnly("ab")).Invalid?
    ensures ParseCreateTask(TitleOnly("ab")).issues == [Issue("title", "Title must be at least 3 characters")]
    ensures ParseCreateTask(TitleOnly("abc")).Valid?
    ensures ParseCreateTask(TitleOnly("   ")).Valid?
    ensures ParseCreateTask(TitleOnly("   ")).value.title == ""
  {
    assert DescriptionIssues(None) == [] && EnumIssues(None, None) == [];
    var short := "Title must be at least 3 characters";
    assert Flag(|"ab"| < 1, "title", "Task title is required") == [];
    assert Flag(|"ab"| < 3, "title", short) == [Issue("title", short)];
    assert Flag(|"ab"| > 100, "title", "Title cannot exceed 100 characters") == [];
    BlankTrimsToEmpty();
  }

  lemma BlankTrimsToEmpty()
    ensures Trim("   ") == ""
  {
    assert TrimStart("   ") == "";
  }

  /** dueDate of an update: absent, explicitly null, or a string. */
  datatype Nullable<T> = Undefined | Null | Defined(value: T)

  datatype TaskUpdateForm = TaskUpdateForm(
    title: Option<string>,
    description: Option<string>,
    status: Option<string>,
    priority: Option<string>,
    dueDate: Nullable<string>,
    tags: Option<seq<string>>)

  /** The parsed update, still carrying a possibly-null dueDate. */
  datatype TaskUpdateInput = TaskUpdateInput(
    title: Option<string>,
    description: Option<string>,
    status: Option<TaskStatus>,
    priority: Option<TaskPriority>,
    dueDate: Nullable<string>,
    tags: Option<seq<string>>)

  /** updateTaskSchema: every field optional; a present title still needs
      3..100 characters (there is no separate "required" message); dueDate
      may be null. */
  function ParseUpdateTask(form: TaskUpdateForm): (r: Parsed<TaskUpdateInput>)
    ensures r.Valid? <==>
      && (form.title.Some? ==> 3 <= |form.title.value| <= 100)
      && (form.description.Some? ==> |form.description.value| <= 500)
      && StatusOk(form.status) && PriorityOk(form.priority)
    ensures r.Valid? ==>
      && r.value.title == TrimOpt(form.title)
      && r.value.description == TrimOpt(form.description)
      && r.value.status.Some? == form.status.Some?
      && (form.status.Some? ==> StatusName(r.value.status.value) == form.status.value)
      && r.value.priority.Some? == form.priority.Some?
      && (form.priority.Some? ==> PriorityName(r.value.priority.value) == form.priority.value)
      && r.value.dueDate == form.dueDate && r.value.tags == form.tags
  {
    Check(
      Flag(form.title.Some? && |form.title.value| < 3, "title", "Title must be at least 3 characters")
      + Flag(form.title.Some? && |form.title.value| > 100, "title", "Title cannot exceed 100 characters")
      + DescriptionIssues(form.description)
      + EnumIssues(form.status, form.priority),
      TaskUpdateInput(TrimOpt(form.title), TrimOpt(form.description), StatusOf(form.status),
                      PriorityOf(form.priority), form.dueDate, form.tags))
  }

  /** The empty update and an update that only clears the due date are valid. */
  lemma EmptyUpdateIsValid()
    ensures ParseUpdateTask(TaskUpdateForm(None, None, None, None, Undefined, None)).Valid?
    ensures ParseUpdateTask(TaskUpdateForm(None, None, None, None, Null, None)).value.dueDate == Null
    ensures ParseUpdateTask(TaskUpdateForm(Some("ab"), None, None, None, Undefined, None)).Invalid?
  {
  }

  // -------------------------------------------------------------- profile

  datatype ProfileForm = ProfileForm(name: Option<string>, bio: Option<string>, avatar: Option<string>)

  /** updateProfileSchema: an optional name of 2..50 characters, an optional
      bio of at most 200, and an avatar that is absent, exactly "", or a URL. */
  function ParseProfile(form: ProfileForm, isUrl: string -> bool): (r: Parsed<UpdateProfileRequest>)
    ensures r.Valid? <==>
      && (form.name.Some? ==> 2 <= |form.name.value| <= 50)
      && (form.bio.Some? ==> |form.bio.value| <= 200)
      && (form.avatar.Some? ==> form.avatar.value == "" || isUrl(form.avatar.value))
    ensures r.Valid? ==> r.value == UpdateProfileRequest(TrimOpt(form.name), TrimOpt(form.bio), form.avatar)
  {
    Check(
      Flag(form.name.Some? && |form.name.value| < 2, "name", "Name must be at least 2 characters")
      + Flag(form.name.Some? && |form.name.value| > 50, "name", "Name cannot exceed 50 characters")
      + Flag(form.bio.Some? && |form.bio.value| > 200, "bio", "Bio cannot exceed 200 characters")
      + Flag(form.avatar.Some? && form.avatar.value != "" && !isUrl(form.avatar.value),
             "avatar", "Please provide a valid URL"),
      UpdateProfileRequest(TrimOpt(form.name), TrimOpt(form.bio), form.avatar))
  }

  // ------------------------------------------------------------- password

  datatype PasswordChangeForm = PasswordChangeForm(
    currentPassword: string,
    newPassword: string,
    confirmPassword: string)

  /** updatePasswordSchema: a non-empty current password, a strong new
      password, a non-empty confirmation, and then, whatever else failed,
      a check that the confirmation equals the new password, reported on the
      confirmPassword field. */
  function ParsePasswordChange(form: PasswordChangeForm): (r: Parsed<PasswordChangeForm>)
    ensures r.Valid? <==>
      |form.currentPassword| >= 1 && StrongPassword(form.newPassword)
      && form.confirmPassword == form.newPassword
    ensures r.Valid? ==> r.value == form
    ensures form.newPassword != form.confirmPassword ==>
      r.Invalid? && |r.issues| > 0 && r.issues[|r.issues| - 1] == Issue("confirmPassword", "Passwords do not match")
  {
    var fields :=
      Flag(|form.currentPassword| < 1, "currentPassword", "Current password is required")
      + PasswordIssues("newPassword", form.newPassword)
      + Flag(|form.confirmPassword| < 1, "confirmPassword", "Please confirm your password");
    var refinement := Flag(form.newPassword != form.confirmPassword, "confirmPassword", "Passwords do not match");
    assert refinement != [] ==> (fields + refinement)[|fields + refinement| - 1] == refinement[0];
    Check(fields + refinement, form)
  }
}

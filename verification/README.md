# Task manager client — a Dafny model

This project models the logic of a small task-manager web client. The client
signs users in, keeps a bearer token in a cookie, and lists, creates, edits
and deletes tasks. It also shows statistics and edits the user's profile.
All of this goes through a single HTTP gateway. Each file of the model is a
Dafny module. Most mirror one source file. Three are shared helpers with no
source file of their own: `strings.dfy` holds the JavaScript string
primitives, `browser.dfy` the browser environment, and `envelope.dfy` the
envelope projections the services share.

- `types.dfy` (`Types`): the shared records and the closed string enums.
- `validations.dfy` (`Validations`): the form schemas.
  - Each schema is a function from raw form values to `Valid(value)` or
    `Invalid(issues)`.
  - Issues accumulate in schema order.
  - In each chain `.trim()` comes after the length checks, so those checks
    see the untrimmed string.
- `token.dfy` (`Token`): the credential slot, a `CookieJar` class over a cookie map.
- `browser.dfy` (`Browser`): the location and the notification log. Both are
  updated in place by navigation and by toasts.
- `api_client.dfy` (`ApiClient`): the gateway.
  - The bearer-header decorator, the success-notification rule and the error
    classification are functions.
  - The error interceptor and a full round trip are methods of the `Client` class.
  - What the server did is an input, `Reply`.
    - A 2xx reply resolves. Any other status, a missing response, or a
      request that could not be set up rejects with the original error.
  - `Exchange` states the whole effect of one round trip on the `Gateway`
    state: requests dispatched, cookies, location and notifications.
    A request counts as dispatched once it has passed the request
    interceptor, even if its sending then fails to be set up.
- `envelope.dfy` (`Envelope`) and `auth_service.dfy`, `task_service.dfy`,
  `user_service.dfy`: the three services.
  - Each operation is one request descriptor (`Call`) sent once, followed
    by a projection of the success envelope.
- `auth_context.dfy`, `use_auth.dfy`, `filter_context.dfy`, `use_tasks.dfy`,
  `use_user.dfy`: the session provider and the state hooks, as classes.
  - React state becomes fields, and each operation is a method.
  - A remote call's outcome is the method's `Reply` argument.
  - A mount effect is a method the caller invokes once after construction.
- `dashboard.dfy`, `site_header.dfy`, `user_profile.dfy`: the logic inside
  the dashboard page, the header and the profile screen:
  - the filter projection;
  - the page-title lookup;
  - the search debounce;
  - the initials;
  - the three profile handlers.
- `strings.dfy` (`Strings`): the JavaScript string operations the client uses.
  These are `includes`, `trim`, ASCII case mapping, one-character `split` and
  `join`.

Some findings the proofs make explicit about the client as written:

- Account endpoints get success notifications from the gateway.
  - The gateway exempts URLs containing "/user/" from success notifications.
  - The account endpoints live under "/users/", so the exemption never applies.
  - A profile update therefore shows the gateway's success notification and
    then the screen's own "Profile updated".
- The session provider's logout sends its logout request without a bearer header.
  - It starts that request and then removes the token without waiting.
  - The gateway's request interceptor runs only after that synchronous code
    has finished, so it finds no token.
  - The standalone auth hook awaits the request first, so its logout request
    does carry the header.
- An empty-string token counts as "no token" both for the header and for
  `isAuthenticated`.
  - A sign-in whose server returns an empty token stores it, yet leaves the
    user signed out.

## Model

| member | source | states |
|---|---|---|
| Types.ParseStatus | types/index.ts:32 | a status string is accepted iff it is one of "pending", "in-progress", "completed", and the accepted value prints back as the same string |
| Types.ParsePriority | types/index.ts:33 | a priority string is accepted iff it is one of "low", "medium", "high", and prints back unchanged |
| Types.ParseRole | types/index.ts:8 | a role string is accepted iff it is "user" or "admin", and prints back unchanged |
| Types.ParseOrder | types/index.ts:73 | a sort order is accepted iff it is "asc" or "desc" |
| Types.EnumRoundTrips | types/index.ts:8-73 | every enum value survives printing and parsing back |
| Validations.PasswordIssues | lib/validations.ts:4-19 | no issue iff the password has at least 6 characters and an upper-case letter, a lower-case letter, a digit and one of the listed special characters; every issue is reported on the given field |
| Validations.PasswordExamples | lib/validations.ts:4-19 | "abcdef1!" fails with exactly the upper-case message; "Abcdef1!" passes |
| Validations.ParseLogin | lib/validations.ts:22-28 | valid iff the e-mail is non-empty and well formed and the password non-empty; the value is the form unchanged |
| Validations.LoginIgnoresStrength | lib/validations.ts:22-28 | a one-character password that fails the strength rule is still a valid login |
| Validations.ParseSignup | lib/validations.ts:30-44 | valid iff the raw name has 2..50 characters, the e-mail is non-empty and well formed, and the password is strong; the value has the name trimmed and the e-mail lower-cased then trimmed |
| Validations.SignupChecksBeforeTrim | lib/validations.ts:31-36 | the name length is checked before trimming: "  a" is accepted and stored as "a" |
| Validations.ParseCreateTask | lib/validations.ts:47-63 | valid iff the raw title has 3..100 characters, a present description at most 500, and status and priority, when present, lie in their enums; the value has trimmed text; status and priority are absent exactly when not given, and otherwise are the enum values that print back as the submitted strings; dueDate and tags are unchanged |
| Validations.TitleExamples | lib/validations.ts:48-53 | "ab" fails with exactly the minimum-length message, "abc" passes, and three spaces pass and are stored as "" |
| Validations.ParseUpdateTask | lib/validations.ts:65-81 | every field optional; valid iff a present title has 3..100 characters, a present description at most 500, and present enums are members; the value has trimmed text, status and priority absent exactly when not given and otherwise the enum values that print back as the submitted strings, and dueDate (a null kept as null) and tags unchanged |
| Validations.EmptyUpdateIsValid | lib/validations.ts:65-81 | the empty update and a dueDate-only null update are valid; a present two-character title is not |
| Validations.ParseProfile | lib/validations.ts:84-97 | valid iff a present name has 2..50 characters, a present bio at most 200, and the avatar is absent, exactly "" or a URL; name and bio are trimmed |
| Validations.ParsePasswordChange | lib/validations.ts:99-106 | valid iff the current password is non-empty, the new one is strong and the confirmation equals it; a mismatch always yields, as its last issue, "Passwords do not match" on confirmPassword |
| Token.TokenOf | lib/token.ts:3-8 | a read returns the cookie stored under "primetrade_auth_token", or nothing when there is none |
| Token.ReplayReadsLastWrite | lib/token.ts:3-20 | after any sequence of sets and removes, a read returns the last set token unless a remove came later, and no other cookie changes |
| Token.CookieJar.Get | lib/token.ts:6-24 | returns the slot's token, present exactly when the cookie exists |
| Token.CookieJar.Set | lib/token.ts:10-25 | stores the given string as it is; a following read returns it |
| Token.CookieJar.Remove | lib/token.ts:18-26 | deletes the cookie; a following read returns nothing |
| Browser.Window.Navigate | lib/api-client.ts:70-71 | the location becomes the given path and the notifications are untouched |
| Browser.Window.Notify | lib/api-client.ts:42-47 | the notification is appended to those shown so far and the location is untouched |
| ApiClient.Decorate | lib/api-client.ts:18-31 | an Authorization header is present iff the token is present and non-empty, and is then "Bearer " + token; other headers are the defaults, on every route |
| ApiClient.SuccessNotice | lib/api-client.ts:34-50 | a success notification is shown iff the method is POST, PUT or DELETE, the URL contains neither "/auth/" nor "/user/", and the body reports success; its text is the server message or "Operation successful" |
| ApiClient.ErrorMessage | lib/api-client.ts:52-101 | the status table the error interceptor settles on; it has no contract of its own: its cases are stated by the five message lemmas below (`SessionExpiry`, `ClientErrorFallbacks`, `ValidationErrorMessages`, `ServerAndOtherMessages`, `SetupErrorMessage`), and `ApiClient.Client.HandleError` is proved to reach it |
| ApiClient.SessionExpiry | lib/api-client.ts:64-73 | a 401 gives "Session expired. Please login again" and redirects to /login exactly when the current path does not contain "/login" |
| ApiClient.ClientErrorFallbacks | lib/api-client.ts:75-85 | 403, 404 and 409 use the server message when there is one, else "Access denied", "Resource not found", "Conflict - Resource already exists" |
| ApiClient.ValidationErrorMessages | lib/api-client.ts:54-93 | 400 and 422 with an error list join it with ", "; without one they use the server message or the default |
| ApiClient.ServerAndOtherMessages | lib/api-client.ts:60-101 | 500 always gives the fixed server-error text; an unlisted status uses the server message or the default; no response gives the network message |
| ApiClient.SetupErrorMessage | lib/api-client.ts:102-104 | a request that could not be set up reports its own message, or "An unexpected error occurred" when that message is empty |
| ApiClient.ErrorNotices | lib/api-client.ts:106-115 | at most one error notification, shown iff the URL does not contain "/auth/" |
| ApiClient.Outcome | lib/api-client.ts:34-52 | a call resolves iff a 2xx response arrived, with that response unchanged; otherwise it rejects with an error naming the requested URL and carrying the original failure: the non-2xx status and body, the missing response, or the setup message |
| ApiClient.OnlyUnauthorizedClearsToken | lib/api-client.ts:63-98 | the token is cleared exactly on a 401 reply |
| ApiClient.AuthNamespaceIsSilent | lib/api-client.ts:37-113 | a call whose URL contains "/auth/" never produces a notification, whatever the reply |
| ApiClient.Exchange | lib/api-client.ts:18-116 | one round trip dispatches exactly one request carrying the token read before it left; cookies change only on a 401 and only by removing the token; the location changes only to "/login"; at most one notification is appended |
| ApiClient.Client.constructor | lib/api-client.ts:9-15 | a new gateway over the given cookie jar and window, with nothing dispatched yet |
| ApiClient.Client.HandleError | lib/api-client.ts:52-116 | the imperative status switch reaches the same message as the status table, removes the token on 401, redirects unless on a login path, and notifies unless on the auth namespace |
| ApiClient.Client.Send | lib/api-client.ts:18-116 | a call decorated, dispatched and passed through the interceptors: the result is the reply's outcome and the gateway state is one Exchange further |
| Envelope.UnwrapAuth | services/auth.service.ts:17-26 | a rejected call fails with the gateway's own error; a resolved call yields the envelope's {user, token}, or fails when the envelope carries none |
| Envelope.UnwrapUser | services/auth.service.ts:34 | as UnwrapAuth, yielding data.user |
| Envelope.UnwrapNothing | services/auth.service.ts:38-40 | succeeds iff the call resolved, whatever the body; a rejection passes the gateway's error on |
| Envelope.UnwrapTask | services/task.service.ts:27-45 | as UnwrapAuth, yielding data.task |
| Envelope.UnwrapPage | services/task.service.ts:19 | as UnwrapAuth, yielding data {count, tasks} |
| Envelope.UnwrapStats | services/task.service.ts:58 | as UnwrapAuth, yielding data.stats |
| AuthService.Signup | services/auth.service.ts:12-18 | one POST to "/auth/signup" carrying the payload; the result is the envelope's {user, token} |
| AuthService.Login | services/auth.service.ts:21-27 | one POST to "/auth/login"; the result is the envelope's data |
| AuthService.GetCurrentUser | services/auth.service.ts:30-35 | one GET to "/auth/me"; the result is data.user |
| AuthService.Logout | services/auth.service.ts:38-40 | one POST to "/auth/logout" with no body; returns nothing |
| AuthService.AuthCallsAreSilent | services/auth.service.ts:14-39 | all four auth calls lie under "/auth/", so the gateway never notifies for them |
| AuthService.ServedDataIsReturned | services/auth.service.ts:12-35 | what a 2xx envelope carries is exactly what signup and getCurrentUser return; an envelope without data is a failure |
| TaskService.GetTasks | services/task.service.ts:13-20 | one GET to "/tasks" with the parameters forwarded unchanged; the result is {count, tasks} |
| TaskService.GetTaskById | services/task.service.ts:23-28 | one GET to "/tasks/" + id; the result is data.task |
| TaskService.CreateTask | services/task.service.ts:31-37 | one POST to "/tasks" carrying the payload; the result is data.task |
| TaskService.UpdateTask | services/task.service.ts:40-46 | one PUT to "/tasks/" + id carrying the payload; the result is data.task |
| TaskService.DeleteTask | services/task.service.ts:49-51 | one DELETE to "/tasks/" + id; returns nothing |
| TaskService.GetTaskStats | services/task.service.ts:54-59 | one GET to "/tasks/stats"; the result is data.stats |
| TaskService.TaskPathIsNotExempt | services/task.service.ts:26-50 | "/tasks/" + id, for an id without "/", contains neither "/auth/" nor "/user/" |
| TaskService.TaskMutationsNotify | services/task.service.ts:31-59 | a successful create, update or delete shows the server message or "Operation successful"; no read shows a success notification |
| TaskService.TaskErrorsNotify | services/task.service.ts:40-51 | a failed update or delete is always shown as one error notification with the classified message |
| TaskService.ServedDataIsReturned | services/task.service.ts:13-59 | what a 2xx envelope carries is exactly what getTasks, getTaskById and getTaskStats return; a delete succeeds on any 2xx |
| UserService.GetProfile | services/user.service.ts:11-16 | one GET to "/users/profile"; the result is data.user |
| UserService.UpdateProfile | services/user.service.ts:19-25 | one PUT to "/users/profile" carrying the payload; the result is data.user |
| UserService.UpdatePassword | services/user.service.ts:28-30 | one PUT to "/users/password" carrying {currentPassword, newPassword}; returns nothing |
| UserService.DeleteAccount | services/user.service.ts:33-35 | one DELETE to "/users/account"; returns nothing |
| UserService.UserPathsAreNotExempt | services/user.service.ts:14-35 | no "/users/..." path contains "/user/" or "/auth/" |
| UserService.AccountMutationsNotify | services/user.service.ts:19-35 | so a successful profile update, password change or account deletion does get the gateway's success notification, and reading the profile does not |
| UserService.ServedDataIsReturned | services/user.service.ts:19-35 | what a 2xx envelope carries is what updateProfile returns; deleteAccount succeeds on any 2xx |
| AuthContext.AuthProvider.constructor | contexts/auth-context.tsx:22-23 | no user, and the loading flag raised |
| AuthContext.AuthProvider.IsAuthenticated | contexts/auth-context.tsx:26 | signed in means a user is held and the cookie holds a present token, both read afresh; it has no contract of its own: `AuthContext.ExpiredSessionSignsOut` shows that removing the token alone signs the session out, and the session operations state it after each call |
| AuthContext.AuthProvider.RefreshUser | contexts/auth-context.tsx:26-45 | without a present token: no call, no user; with one: the fetched user on success, otherwise no user and the token removed; the loading flag ends lowered; authenticated afterwards iff a token was present and the fetch succeeded |
| AuthContext.AuthProvider.Login | contexts/auth-context.tsx:47-52 | on success the token is stored, the user set and the location is "/dashboard", authenticated iff the token is non-empty; on failure the user is unchanged, the gateway's own effects are the only ones and the error is returned |
| AuthContext.AuthProvider.Signup | contexts/auth-context.tsx:54-59 | as Login, through the signup call |
| AuthContext.AuthProvider.Logout | contexts/auth-context.tsx:61-66 | the token is removed, the user cleared and the location is "/login" whatever the server does; the unawaited logout request goes out without an Authorization header, and the whole gateway state is the logout exchange from that signed-out state |
| AuthContext.ExpiredSessionSignsOut | lib/api-client.ts:64-73 | when the gateway handles a 401, a provider sharing its cookie jar keeps its user but is no longer authenticated, because the token is gone |
| AuthContext.SignedOutLogout | contexts/auth-context.tsx:61-66 | once the token is gone and the location is "/login", the logout exchange sends the call without a token and changes nothing else, whatever the server answers |
| AuthContext.UseAuth | contexts/auth-context.tsx:89-95 | outside a provider the hook fails with "useAuth must be used within an AuthProvider" |
| UseAuth.AuthHook.constructor | hooks/use-auth.ts:8 | the hook keeps only a loading flag, initially lowered |
| UseAuth.AuthHook.Signup | hooks/use-auth.ts:11-23 | on success the token is written, the location is "/dashboard" and the response is returned; on failure nothing is returned and only the gateway's effects remain; the flag ends lowered |
| UseAuth.AuthHook.Login | hooks/use-auth.ts:25-37 | as Signup, through the login call |
| UseAuth.AuthHook.Logout | hooks/use-auth.ts:39-50 | the awaited logout request carries the bearer header when a token was present; afterwards the token is removed and the location is "/login", whatever the reply |
| FilterContext.FilterProvider.constructor | contexts/filter-context.tsx:20-23 | empty search, status and priority "all", create dialog closed |
| FilterContext.FilterProvider.SetSearchQuery | contexts/filter-context.tsx:20-35 | sets the search to any string and changes nothing else |
| FilterContext.FilterProvider.SetStatusFilter | contexts/filter-context.tsx:21-37 | sets the status filter to any string and changes nothing else |
| FilterContext.FilterProvider.SetPriorityFilter | contexts/filter-context.tsx:22-39 | sets the priority filter to any string and changes nothing else |
| FilterContext.FilterProvider.SetCreateDialogOpen | contexts/filter-context.tsx:23-42 | sets the dialog flag and changes nothing else |
| FilterContext.FilterProvider.ResetFilters | contexts/filter-context.tsx:25-29 | restores "", "all", "all" and leaves the dialog flag alone |
| FilterContext.UseFilters | contexts/filter-context.tsx:50-55 | outside a provider the hook fails with "useFilters must be used within FilterProvider" |
| UseTasks.TaskList.FetchTasks | hooks/use-tasks.ts:17-31 | the list and count become the server's page on success and [] and 0 on failure; never rejects; the flag ends lowered |
| UseTasks.TaskList.CreateTask | hooks/use-tasks.ts:33-44 | after a successful create the list is refetched with the current parameters and the created task is returned even if that refetch fails; after a failure nothing is refetched, the list is unchanged and nothing is returned |
| UseTasks.TaskList.UpdateTask | hooks/use-tasks.ts:46-57 | as CreateTask, through the update call |
| UseTasks.TaskList.DeleteTask | hooks/use-tasks.ts:59-70 | true exactly when the delete succeeded, in which case the list was refetched; false leaves the list unchanged |
| UseTasks.TaskList.UpdateFilters | hooks/use-tasks.ts:72-78 | the parameters are replaced wholesale and the list is fetched with them |
| UseTasks.TaskList.constructor | hooks/use-tasks.ts:12-15 | an empty list, count 0, the flag lowered and the initial parameters; the list only ever shows the last page served or nothing |
| UseTasks.TaskStatsPanel.FetchStats | hooks/use-tasks.ts:93-109 | the statistics become the server's on success and are cleared on failure |
| UseTasks.TaskStatsPanel.constructor | hooks/use-tasks.ts:93-95 | no statistics and the loading flag lowered |
| UseUser.ProfileCache.constructor | hooks/use-user.ts:6-8 | no user, the loading flag lowered, the initial-loading flag raised |
| UseUser.ProfileCache.FetchProfile | hooks/use-user.ts:10-23 | the cached user becomes the server's or is cleared on failure; both flags end lowered |
| UseUser.ProfileCache.UpdateProfile | hooks/use-user.ts:25-36 | the cached user becomes the updated one on success and is kept on failure |
| UseUser.ProfileCache.UpdatePassword | hooks/use-user.ts:38-48 | true exactly when the call succeeded; the cached user never changes |
| UseUser.ProfileCache.DeleteAccount | hooks/use-user.ts:50-60 | true exactly when the call succeeded; the cached user never changes |
| Dashboard.QueryOf | app/dashboard/page.tsx:28-35 | search is absent iff it is "", status and priority are absent iff they are "all" and otherwise passed on unchecked, and sorting is never set |
| Dashboard.QueryOfRoundTrip | app/dashboard/page.tsx:29-33 | the three filter values can be read back from the query, and every query without sorting, empty search or "all" comes from some filter values |
| Dashboard.QueryExamples | app/dashboard/page.tsx:29-33 | cleared filters give the empty query; an unknown status string still reaches the query |
| Dashboard.NormalizeUpdate | app/dashboard/page.tsx:52-57 | a null due date becomes absent, a given one is kept, and every other field is copied |
| Dashboard.NullDueDateIsDropped | app/dashboard/page.tsx:53-57 | clearing the due date and not touching it send the same request |
| Dashboard.DashboardPage.constructor | app/dashboard/page.tsx:21-26 | the page shares the given filters and task list; no task is selected and both dialogs are closed |
| Dashboard.DashboardPage.SyncFilters | app/dashboard/page.tsx:28-35 | the list's parameters become the projection of the current filters and the list is fetched with them |
| Dashboard.DashboardPage.HandleEdit | app/dashboard/page.tsx:37-40 | selects the task and opens only the edit dialog |
| Dashboard.DashboardPage.HandleDelete | app/dashboard/page.tsx:42-45 | selects the task and opens only the delete dialog |
| Dashboard.DashboardPage.HandleTaskUpdated | app/dashboard/page.tsx:52-59 | the update sent is the normalised one, to "/tasks/" + id; on success the list is refetched with the unchanged params and shows that fetch's result, on failure the list is unchanged; the gateway state follows the update exchange and, after success, the refetch exchange |
| SiteHeader.FirstMatchIsEarliest | components/site-header.tsx:52-75 | a first-match lookup returns the value of the earliest entry whose key occurs in the path |
| SiteHeader.FirstMatchFallsBack | components/site-header.tsx:56-76 | when no key occurs the lookup returns the fallback |
| SiteHeader.PageTitle | components/site-header.tsx:51-57 | the title chain; it has no contract of its own: `SiteHeader.PageTitleIsFirstMatch` and `SiteHeader.TitleExamples` state what it returns |
| SiteHeader.PageTitleIsFirstMatch | components/site-header.tsx:52-57 | the title chain is the first-match lookup over "/dashboard", "/profile", "/tasks" with fallback "Primetrade" |
| SiteHeader.TitleExamples | components/site-header.tsx:52-57 | order decides: "/dashboard/profile" is titled "Dashboard"; "/" is titled "Primetrade" |
| SiteHeader.PageDetails | components/site-header.tsx:60-76 | the loop returns the first entry, "/dashboard" before "/profile", whose path occurs, else "Welcome to Primetrade" |
| SiteHeader.HasActiveFilter | components/site-header.tsx:81-82 | the badge condition, the status filter differing from "all" (the priority filter plays no part); it has no contract of its own: `SiteHeader.FilterOptionsAreStatuses` and `SiteHeader.HeaderControls.ChooseFilter` state when it holds |
| SiteHeader.FilterOptionsAreStatuses | components/site-header.tsx:82-89 | the menu offers "all" and exactly the task statuses; the badge lights iff the status filter is not "all", whatever the priority filter |
| SiteHeader.ShowsDashboardControls | components/site-header.tsx:114-170 | the gate on the search box, the filter menu and the new-task button: a path containing "/dashboard"; it has no contract of its own: `SiteHeader.DashboardControlsExamples` pins it, and `Type`, `ChooseFilter` and `NewTask` require it |
| SiteHeader.DashboardControlsExamples | components/site-header.tsx:114-170 | the controls are shown on "/dashboard" and "/dashboard/profile" and not on "/profile" or "/tasks" |
| SiteHeader.HeaderControls.constructor | components/site-header.tsx:35-44 | the local text starts as the shared query and a timeout is armed at mount |
| SiteHeader.HeaderControls.Type | components/site-header.tsx:38-44 | only on a dashboard path, where the search box exists: a keystroke cancels the pending timeout and arms a fresh 500 ms one for the new text; the shared query is untouched |
| SiteHeader.HeaderControls.Advance | components/site-header.tsx:38-44 | the shared query changes only when the pending timeout runs out, and then to the latest local text; nothing else in the filters changes |
| SiteHeader.HeaderControls.SyncFromQuery | components/site-header.tsx:47-49 | the local text follows the shared query |
| SiteHeader.HeaderControls.ChooseFilter | components/site-header.tsx:155 | only on a dashboard path, where the menu exists: picking an entry sets the status filter to its value and changes no other filter; the badge lights exactly for an entry other than "all" |
| SiteHeader.HeaderControls.NewTask | components/site-header.tsx:173 | only on a dashboard path, where the button exists: it opens the create dialog and changes nothing else |
| SiteHeader.TypingBurst | components/site-header.tsx:38-44 | five quick keystrokes then a pause publish one query, the final text |
| UserProfile.Initials | components/dashboard/user-profile.tsx:138-143 | the initials have at most two characters |
| UserProfile.HeadsAreWordStarts | components/dashboard/user-profile.tsx:138-141 | splitting on " ", taking each piece's first character and joining gives exactly the characters that start a word, in order; empty pieces contribute nothing |
| UserProfile.InitialsAreWordStarts | components/dashboard/user-profile.tsx:138-143 | the initials are the first two word-start characters, upper-cased |
| UserProfile.InitialsExamples | components/dashboard/user-profile.tsx:138-143 | "al  bo cy" gives "AB" and " x" gives "X" |
| UserProfile.Prefill | components/dashboard/user-profile.tsx:65-71 | the form gets the user's name, the bio or "", and the avatar or "" |
| UserProfile.PrefillValidity | components/dashboard/user-profile.tsx:65-71 | a prefilled form passes the profile schema iff the stored name and bio are within bounds and the avatar is missing, empty or a URL |
| UserProfile.FailureDetail | components/dashboard/user-profile.tsx:82-123 | the server's message from the error response when there is one, otherwise the fallback |
| UserProfile.ProfileScreen.constructor | components/dashboard/user-profile.tsx:38-63 | the screen reads the given session; no operation is busy and the password form is empty |
| UserProfile.ProfileScreen.HandleProfileUpdate | components/dashboard/user-profile.tsx:73-89 | the notifications are the gateway's own for the call (one success notification, by `UserService.AccountMutationsNotify`) followed by "Profile updated", or by "Update failed" with the server message or "Please try again."; on success the awaited session refresh leaves no user without a token, the `/auth/me` user when it answers, and no user and no token when it fails, and the whole gateway state is the update exchange then the refresh exchange; on failure the session user is unchanged and the gateway state is the update exchange (a 401 clears the token and goes to "/login"); the busy flag ends lowered |
| UserProfile.ProfileScreen.EnterPasswords | components/dashboard/user-profile.tsx:243-311 | the password form holds the entered values; the busy flags are untouched |
| UserProfile.ProfileScreen.HandlePasswordUpdate | components/dashboard/user-profile.tsx:91-110 | the submitted form is the one entered; only its current and new password are sent; the form is reset and "Password updated" shown only on success; otherwise "Update failed" with the server message or "Please check your current password." and the entered form is kept; the whole gateway state is the exchange plus that notification |
| UserProfile.ProfileScreen.HandleDeleteAccount | components/dashboard/user-profile.tsx:112-128 | only after a successful deletion: "Account deleted", then sign-out (token removed, no user, location "/login"), and the whole gateway state is the deletion exchange, that toast and the signed-out logout exchange, whose request carries no Authorization header; otherwise "Deletion failed", the session is untouched and the gateway state is the deletion exchange plus that toast; the session's loading flag is untouched on both paths |

## Left out

- Rendering: all JSX, styling and icons are left out, and so are the presentational pages and dialogs. The only exception is the icon choice inside the page details.
- The HTTP transport is not modelled. This covers the base URL taken from the environment, the 10-second timeout and real requests. A call's outcome is the `Reply` input.
- Cookie options are left out (7-day expiry, `secure`, `sameSite`). The cookie is a map entry.
- Toasts and navigation are modelled only as a log and a location. Sonner's rendering and Next's router are out of scope. `router.push` and the gateway's assignment to `window.location.href` both set the location.
- The page reload after a 401 is not modelled. The gateway's redirect to "/login" (lib/api-client.ts:68-72) is a full page load that discards all in-memory state: the session user, the filters, the task list, the profile cache and the pending debounce timer. The model only sets the location and keeps that state.
- The e-mail and URL checks of the validation library are regular expressions. They are passed in as predicates.
- Validations.ParseCreateTask: the enum issue carries only "Invalid enum value". The library's message goes on to list the allowed values and the received one.
- Strings.ToUpper, Strings.ToLower: only ASCII letters are mapped. String lengths count code points, not UTF-16 code units.
- Date handling is left out. This covers `toISOString` in the edit dialog and date formatting in the list. Dates are plain strings.
- Real timers and React scheduling are left out.
  - Each effect is a method call: the mount effects, the params effect, the filter effect and the search sync.
  - The debounce is discrete: keystrokes, plus elapsed-time events.
  - React's bail-out on an unchanged state value is not modelled.
- Overlapping `fetchTasks` calls are not modelled. Each method runs to completion before the next starts.
- The getToken, setToken and removeToken aliases are not separate members. They are the same functions as get, set and remove, so the model gives them no members of their own.
- A success reply whose envelope lacks the expected `data` fails as `Malformed`.
  - In the source, the non-null assertion does nothing at run time.
  - Depending on the caller, the result is either an undefined value or a TypeError when a field of it is read.
  - Every caller in the core treats both like a failed call.
- An envelope field that is read is taken from the variant the endpoint sends. The model does not look for the same field name on another shape.
- TaskService.TaskPathIsNotExempt, TaskService.TaskMutationsNotify, TaskService.TaskErrorsNotify: these are proved only for task ids without "/". An id containing "/auth/" or "/user/" would fall into an exempt namespace.
- The create-task, delete-task and generic-refresh wrappers on the dashboard page are left out. They only forward to the task hook, which is modelled.

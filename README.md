# SkillLink front end, modelled in Dafny

SkillLink is a freelance marketplace: clients post tasks, freelancers bid on them,
and the two sides talk about a task once a bid is accepted. This project models
the logic of its React front end that can be stated exactly, and proves properties of it:

- **The authenticated request gateway** (`Api`). This is the shared HTTP client.
  - Its request interceptor attaches `Authorization: Bearer <token>` (section 2.1
    of RFC 6750) from browser storage.
  - Its response interceptor answers a 401 (section 15.5.2 of RFC 9110) by
    refreshing the access token at most once per request, then re-issuing the request.
  - Any other failure raises an error toast and rejects.
  - Browser storage is a map, and the server is a pair of functions from what is sent
    to what is answered. The client records every call it puts on the wire.
  - `createTask` chooses between a multipart body and a JSON body. It is a loop
    method proved against a specification function.
- **The session and theme stores** (`AuthContext`, `ThemeContext`). Each is a pure
  reducer plus the provider's imperative sequences: start-up, login, logout, the
  profile patch and the theme persistence effect. Each provider is a class whose
  methods update storage and the reducer state in place.
- **The logic embedded in pages**:
  - Registration (`Register`): skills parsing, the verification-code sanitiser and
    guard, the click-highlight set, field rules, and the verification handler.
  - Sign-in (`Login`): the redirect target and the error message.
  - Profile (`Profile`): form defaults, the update record, and the visibility toggle.
  - Task list (`TaskList`): filters and pagination.
  - Task detail (`TaskDetail`): bid eligibility, panel visibility, and chat.
  - Task creation (`CreateTask`): the attachment list, the task object, and field rules.
  - Notification menu (`Navbar`).
  - The three dashboards (`ClientDashboard`, `FreelancerDashboard`, `AdminDashboard`,
    over the shared `Stats`), and the role switch (`Dashboard`).
- **Shared helpers**:
  - `Wrappers`: an `Option` type.
  - `Text`: ASCII trimming, splitting, case and digits.
  - `CommaList`: the comma-list parse and join, and their round trip.
  - `Forms`: the first broken rule's message. react-hook-form checks `required`,
    then the lengths, then `pattern`, and every modelled field lists its rules in
    that order. The length and pattern rules only apply to a non-empty value.

JavaScript truthiness is written out. A stored empty string counts as absent, and
so does a missing or empty message. `undefined` written to storage is stored as
the text `undefined`.

On a failed refresh the request rejects with the refresh error, not with the
original 401 (src/services/api.js:46).

The code re-issues a request with `return api(originalRequest)` inside `try`, without
`await` (src/services/api.js:41). A failure of the re-issued request is therefore not
caught by the refresh `catch`: the tokens are kept and no redirect happens. The
re-issued request carries `_retry`, so its own failure is surfaced by the same
interceptor as a plain error. The model does exactly that.

## Model

| member | source | states |
|---|---|---|
| `Api.Stored` | src/services/api.js:15-16 | a stored value counts only when present and non-empty, as `if (token)` reads it |
| `Api.WithAuth` | src/services/api.js:13-22 | the Authorization header is "Bearer " + token exactly when a token is stored; otherwise the headers are unchanged; no other header is touched |
| `Api.Client.InterceptRequest` | src/services/api.js:14-19 | the request interceptor updates the configuration's headers in place to `WithAuth` of the current storage |
| `Api.Exchange` | src/services/api.js:25-59 | one pass through the client puts at least one call on the wire and keeps every earlier call |
| `Api.Recovery` | src/services/api.js:27-58 | the error handler only appends calls, and never rewrites earlier ones |
| `Api.Client.Send` | src/services/api.js:13-59 | sending through the interceptors changes the browser, the configuration and the outcome exactly as `Exchange` specifies |
| `Api.Client.HandleError` | src/services/api.js:27-58 | the response interceptor's error branch, imperatively, is `Recovery` |
| `Api.Client.Request` | src/services/api.js:80-82 | a service call starts from a fresh configuration with `_retry` unset, and ends as `Exchange` from that configuration |
| `Api.RetriedRequestIsFinal` | src/services/api.js:31-32 | a request already marked `_retry` makes exactly one call, changes no storage, and surfaces its failure as it is |
| `Api.AtMostOneRefresh` | src/services/api.js:31-41 | whatever the server answers, a request makes one call, one call and a refresh, or one call, a refresh and one re-issue |
| `Api.RefreshSuccess` | src/services/api.js:37-41 | on refresh success only `token` changes (the refresh token is kept); the request is re-issued once with the new bearer token, and that answer decides the outcome |
| `Api.RefreshFailure` | src/services/api.js:42-46 | on refresh failure both tokens are removed, the location becomes /login, no toast is raised, nothing is re-issued, and the request rejects with the refresh error |
| `Api.UnrecoveredFailure` | src/services/api.js:52-57 | every other failure changes no storage, raises one toast (the server message or 'An error occurred') when the status is 400 or more, and rejects with the error itself |
| `Api.ResolvesOnlyOnSuccess` | src/services/api.js:25-57 | nothing is swallowed: a request resolves exactly when the last call through the client got a 2xx, and then with that answer unchanged |
| `Api.Lookup` | src/services/api.js:85 | a key is found exactly when the object has it |
| `Api.FileParts` | src/services/api.js:89 | each file becomes one `attachments` part, in order |
| `Api.FormParts` | src/services/api.js:86-93 | the `attachments` list is never sent as a plain field, only file by file; its full contents are stated by `Api.FormPartsContents` |
| `Api.FormPartsContents` | src/services/api.js:86-93 | the multipart body carries the attached files in their order, and every other key once, with its value, in key order |
| `Api.CreateTaskBody` | src/services/api.js:83-97 | the body is multipart (built by nested loops) exactly when the attachments are non-empty; otherwise it is the object unchanged |
| `AuthContext.InitialState` | src/context/AuthContext.jsx:36-41 | the store starts loading and signed out, with the stored token read as it is |
| `AuthContext.Reduce` | src/context/AuthContext.jsx:6-34 | only `LOGIN_SUCCESS` and `LOGOUT` change authentication or the token, only `LOADING` raises the loading flag, an unknown action changes nothing; each action's effect is stated by `LoadingAndLogin`, `LogoutForgets`, `UpdateUserMerges` and `UnknownAndLoading` |
| `AuthContext.LoadingAndLogin` | src/context/AuthContext.jsx:8-17 | LOADING only raises the flag; LOGIN_SUCCESS signs in with the payload's user (possibly missing) and the payload's token, from any state |
| `AuthContext.LogoutForgets` | src/context/AuthContext.jsx:18-25 | LOGOUT gives the same signed-out state (no user, no token, not loading) from any two states |
| `AuthContext.UpdateUserMerges` | src/context/AuthContext.jsx:26-30 | UPDATE_USER wins on the payload's keys, keeps the user's other keys, adds no others, and leaves authentication and token alone; on a signed-out state the payload becomes the user |
| `AuthContext.UnknownAndLoading` | src/context/AuthContext.jsx:31-32 | an unknown action changes nothing; LOADING is idempotent |
| `AuthContext.ReducePreservesCoherence` | src/context/AuthContext.jsx:6-34 | no action leaves an authenticated state without a user, provided a LOGIN_SUCCESS payload carries a user record |
| `AuthContext.NullUserSignsIn` | src/context/AuthContext.jsx:10-17 | the reducer does not check the payload: a LOGIN_SUCCESS without a user record (as dispatched unchecked at lines 55, 83 and 97) gives an authenticated state with no user |
| `AuthContext.AuthenticatedUntilLogout` | src/context/AuthContext.jsx:10-30 | after a LOGIN_SUCCESS with a user, the state stays authenticated, with a user, through any actions until a LOGOUT, as long as each later LOGIN_SUCCESS carries a user |
| `AuthContext.SignedOutUntilLogin` | src/context/AuthContext.jsx:18-30 | after LOGOUT the state stays signed out and token-less through any actions until a LOGIN_SUCCESS |
| `AuthContext.AuthProvider.constructor` | src/context/AuthContext.jsx:44 | the provider starts from the initial state over the given storage |
| `AuthContext.AuthProvider.Dispatch` | src/context/AuthContext.jsx:44 | a dispatch replaces the state by the reducer's result |
| `AuthContext.AuthProvider.InitAuth` | src/context/AuthContext.jsx:47-67 | no stored token: LOGOUT; a token and a user reply: signed in with that token and the reply's `data`, even when it is null; a token whose user fetch fails: both tokens removed, then LOGOUT; afterwards the state is not loading and agrees with storage, and it is authenticated without a user exactly when the reply's `data` was null |
| `AuthContext.AuthProvider.Login` | src/context/AuthContext.jsx:72-105 | LOADING first; `verified` skips the login call and signs in with the stored token and the current-user reply's `data`; otherwise both tokens are stored, then LOGIN_SUCCESS with the reply's fields; any failure signs out and reports failure; the result is true exactly when signed in; the state is authenticated without a user exactly when the reply carried none; storage and state disagree only when the reply lacks an access token |
| `AuthContext.AuthProvider.Logout` | src/context/AuthContext.jsx:127-137 | whatever the server answers, both tokens are removed and the state is LOGOUT's |
| `AuthContext.AuthProvider.UpdateUser` | src/context/AuthContext.jsx:139-141 | the patch is dispatched, and storage agreement is kept |
| `ThemeContext.InitialIsDark` | src/context/ThemeContext.jsx:22-25 | a stored 'dark' means dark; any other stored non-empty value means light, overriding the system preference; with nothing stored the preference decides |
| `ThemeContext.Reduce` | src/context/ThemeContext.jsx:5-20 | the flag changes exactly on a toggle, or on setting the value it does not have; `ReducerLaws` states the rest |
| `ThemeContext.ReducerLaws` | src/context/ThemeContext.jsx:5-20 | toggling negates, so twice is the identity; SET_THEME is idempotent; an unknown action changes nothing |
| `ThemeContext.ThemeProvider.constructor` | src/context/ThemeContext.jsx:22-38 | mounting computes the initial flag, then runs the effect |
| `ThemeContext.ThemeProvider.Apply` | src/context/ThemeContext.jsx:30-38 | afterwards the stored theme is 'dark' iff dark, else 'light'; the `dark` class is present iff dark; the next start-up reads back the same flag whatever the system prefers |
| `ThemeContext.ThemeProvider.Dispatch` | src/context/ThemeContext.jsx:28-38 | a dispatch applies the reducer, and the effect mirrors the new flag |
| `ThemeContext.ThemeProvider.ToggleTheme` | src/context/ThemeContext.jsx:40-42 | the state is the reducer's answer to a toggle, so the flag flips; storage gets `dark` or `light` under the theme key and the `dark` class is added or removed to match; nothing else in storage or the class list changes |
| `ThemeContext.ThemeProvider.SetTheme` | src/context/ThemeContext.jsx:44-46 | the state is the reducer's answer to the set, so the flag becomes the argument; storage and the `dark` class follow it and nothing else changes; setting the current value changes neither storage nor classes |
| `Text.TrimSpec` | src/pages/Auth/Register.jsx:60 | a trimmed entry has no surrounding white space and is a slice of the input from which only white space was cut, at both ends |
| `Text.Contains` | src/pages/Auth/Login.jsx:28 | `includes` holds exactly when the text occurs at some position |
| `Text.Digits` | src/pages/Auth/Register.jsx:449 | only digits are kept, and every digit of the input is kept |
| `Text.DigitsOfChar` | src/pages/Auth/Register.jsx:449 | one character is kept exactly when it is a digit |
| `Text.DigitsAppend` | src/pages/Auth/Register.jsx:449 | removing non-digits distributes over concatenation, so the digits come out in input order, each as often as it occurs |
| `Text.ReplaceFirst` | src/components/Layout/Navbar.jsx:186 | only the first occurrence is replaced; every other character stays |
| `CommaList.ParseEntries` | src/pages/Auth/Register.jsx:60 | every parsed entry is non-empty, trimmed and free of commas |
| `CommaList.Parse` | src/pages/Auth/Register.jsx:60 | at most one entry per comma-separated piece and none empty; with `ParseEntries`, `ParseAround`, `ParseFormat` and `ParseIdempotent` it is the inverse of `Format` on lists of entries |
| `CommaList.Format` | src/pages/Profile/Profile.jsx:45-46 | no entries give the empty text, one entry gives itself, and entries are separated by ", "; `ParseFormat` proves `Parse` undoes it |
| `CommaList.ParseAround` | src/pages/Profile/Profile.jsx:63-64 | parsing keeps input order: the entries of `a,b` are those of `a` followed by those of `b` |
| `CommaList.ParseFormat` | src/pages/Profile/Profile.jsx:45-64 | parsing the ', '-join of non-empty, trimmed, comma-free entries gives back the same list |
| `CommaList.ParseIdempotent` | src/pages/Profile/Profile.jsx:63-64 | saving a parsed list again gives the same list |
| `Forms.Validate` | src/pages/Auth/Login.jsx:88-94 | a value is valid exactly when it breaks no rule; otherwise the message is that of the first rule it breaks |
| `Forms.IsEmail` | src/pages/Auth/Login.jsx:70 | an accepted address contains '@' and has at least six characters; `EmailCheckMatchesPattern` proves it accepts exactly the language of the regular expression |
| `Forms.EmailCheckMatchesPattern` | src/pages/Auth/Login.jsx:70 | the computed check accepts exactly local@domain.tld with local in [A-Z0-9._%+-]+, domain in [A-Z0-9.-]+ and a top-level part of at least two letters, in any case |
| `Forms.EmailRulesAccept` | src/pages/Auth/Login.jsx:67-73 | an email is accepted exactly when it matches that pattern; an empty one gets 'Email is required' (the registration form, Register.jsx:290-296, has the same rules) |
| `Forms.PasswordRulesAccept` | src/pages/Auth/Register.jsx:320-326 | a password is accepted exactly when it has at least 6 characters, with the message of each failing case (the sign-in form, Login.jsx:88-94, has the same rules) |
| `Register.ProcessSkills` | src/pages/Auth/Register.jsx:59-61 | a missing or empty skills value is left untouched; any other is replaced by its parsed entries |
| `Register.ProcessSkillsEntries` | src/pages/Auth/Register.jsx:60 | parsed skills are non-empty, trimmed, comma-free, and in input order |
| `Register.SanitizeCode` | src/pages/Auth/Register.jsx:449 | the code is a prefix of the input's digits, in order, exactly six long when the input has six or more digits and otherwise all of them |
| `Register.SanitizeIdempotent` | src/pages/Auth/Register.jsx:449 | sanitising twice equals sanitising once |
| `Register.CodeRefusal` | src/pages/Auth/Register.jsx:76-79 | verification is refused with 'Please enter a valid 6-digit code' exactly when the code does not have six characters |
| `Register.SanitizedCodeAccepted` | src/pages/Auth/Register.jsx:76 | a sanitised code passes exactly when the input held at least six digits |
| `Register.Click` | src/pages/Auth/Register.jsx:44 | a click adds the id and nothing else |
| `Register.Release` | src/pages/Auth/Register.jsx:46-51 | the delayed removal deletes only that id |
| `Register.ClickThenRelease` | src/pages/Auth/Register.jsx:43-53 | click then removal restores the set unless the id was already highlighted, in which case it is removed |
| `Register.NameRulesAccept` | src/pages/Auth/Register.jsx:260-266 | a name is accepted exactly when it has at least 2 characters, with the message of each failing case |
| `Register.HandleVerification` | src/pages/Auth/Register.jsx:74-99 | a code without six characters makes no call and changes nothing; on acceptance both tokens are stored first; a reply without a `user` object then fails with 'Verification failed' and no sign-in; otherwise the `verified` login holds the stored token and the current-user reply's `data`; every failure toasts the server message or 'Verification failed' |
| `Login.RedirectTarget` | src/pages/Auth/Login.jsx:15 | the target is the `from` path when given, otherwise '/dashboard'; it is never empty |
| `Login.Render` | src/pages/Auth/Login.jsx:17-19 | an authenticated visitor is redirected to that target without the form; nobody else is |
| `Login.LoginErrorMessage` | src/pages/Auth/Login.jsx:27-32 | a message containing 'verify your email' becomes the fixed hint; otherwise the server message is shown, or 'Login failed' |
| `Login.VerifyMarkerAnywhere` | src/pages/Auth/Login.jsx:28-29 | the marker anywhere in the message selects the hint |
| `Login.SubmitToast` | src/pages/Auth/Login.jsx:21-36 | success toasts exactly when login resolved; a failure shows the mapped message |
| `Profile.ListText` | src/pages/Profile/Profile.jsx:45-46 | a non-array (or empty array) field shows as '' |
| `Profile.FormDefaults` | src/pages/Profile/Profile.jsx:42-48 | the lists are joined with ', ', the bio defaults to '' and the visibility to 'PUBLIC' |
| `Profile.ListField` | src/pages/Profile/Profile.jsx:63-64 | an empty field gives [], and every entry is non-empty, trimmed and comma-free |
| `Profile.Submit` | src/pages/Profile/Profile.jsx:60-66 | the update record has exactly name, bio, skills, portfolioLinks and profileVisibility, the lists parsed |
| `Profile.SubmitDefaultsRoundTrip` | src/pages/Profile/Profile.jsx:42-66 | saving the form unchanged sends back the fetched lists when their entries are clean, and [] for a non-array |
| `Profile.NextVisibility` | src/pages/Profile/Profile.jsx:82 | the result is 'PRIVATE' exactly when the current value is 'PUBLIC'; otherwise it is 'PUBLIC' |
| `Profile.ToggleTwice` | src/pages/Profile/Profile.jsx:82 | toggling twice from either setting returns to it |
| `Profile.ProfilePage.ToggleVisibility` | src/pages/Profile/Profile.jsx:80-92 | on success only the profile's visibility changes, the user is patched with that field alone, and the toast names it in lower case; on failure, or with no profile loaded, only the failure toast is added |
| `TaskList.SetFilter` | src/pages/Tasks/TaskList.jsx:50-56 | a filter change sets that key, resets the page to 1, and keeps the other keys |
| `TaskList.SetPage` | src/pages/Tasks/TaskList.jsx:58-60 | a page change sets only the page |
| `TaskList.FilterResetsPage` | src/pages/Tasks/TaskList.jsx:50-60 | a filter change after a page change is the same as the filter change alone |
| `TaskList.PageButtons` | src/pages/Tasks/TaskList.jsx:212-215 | the buttons are exactly 1..n in order, each marked when it is the current page |
| `TaskList.Render` | src/pages/Tasks/TaskList.jsx:201-231 | controls appear exactly when totalPages > 1; Previous is disabled on page 1 and targets page-1; Next is disabled on the last page and targets page+1 |
| `TaskList.ControlsStayInRange` | src/pages/Tasks/TaskList.jsx:205-227 | within range, exactly the current page's button is highlighted, and enabled arrows lead to pages within range |
| `TaskDetail.HasAcceptedBidAsWritten` | src/pages/Tasks/TaskDetail.jsx:152 | as written, rendering throws exactly when the visitor is missing and the task has bids |
| `TaskDetail.SignedOutVisitorCrashes` | src/pages/Tasks/TaskDetail.jsx:152 | a signed-out visitor on a task with one bid crashes the page |
| `TaskDetail.CanBid` | src/pages/Tasks/TaskDetail.jsx:149-150 | exactly a signed-in freelancer on an open task with no bid of theirs among its bids (a missing bid list has none) |
| `TaskDetail.IsTaskOwner` | src/pages/Tasks/TaskDetail.jsx:151 | a signed-in visitor owns the task exactly when the client id is theirs; a signed-out visitor "owns" exactly a task whose `clientId` key is absent |
| `TaskDetail.HasAcceptedBid` | src/pages/Tasks/TaskDetail.jsx:152 | the corrected predicate never throws, gives no accepted bid to a missing visitor, and agrees with the written code wherever that renders |
| `TaskDetail.BidStatesExclusive` | src/pages/Tasks/TaskDetail.jsx:149-152 | nobody both can bid and holds a taken bid; a bidder is a signed-in user with no bid on the task |
| `TaskDetail.ShowsBids` | src/pages/Tasks/TaskDetail.jsx:226 | line 226's condition over the corrected `hasAcceptedBid`: the panel needs at least one bid, and over the corrected predicate a signed-out visitor would see it exactly on a task with bids and no client id; `PanelsAreRestricted` states who else may, and `PanelsAsWritten` that it agrees with the page wherever the page renders |
| `TaskDetail.OffersAccept` | src/pages/Tasks/TaskDetail.jsx:257 | the Accept button appears only on an open task with bids; `PanelsAreRestricted` states that it is exactly the owner's |
| `TaskDetail.ShowsMessages` | src/pages/Tasks/TaskDetail.jsx:304 | line 304's condition over the corrected `hasAcceptedBid`: over it a signed-out visitor would see the messages exactly on a task with no client id; `PanelsAreRestricted` states who else may, and `PanelsAsWritten` that it agrees with the page wherever the page renders |
| `TaskDetail.PanelsAsWritten` | src/pages/Tasks/TaskDetail.jsx:152-304 | wherever the page as written renders, the bids and messages panels are lines 226 and 304 over the written `hasAcceptedBid`, and a signed-out visitor sees neither the bids panel nor the Accept button |
| `TaskDetail.PanelsAreRestricted` | src/pages/Tasks/TaskDetail.jsx:226 | bids and messages (also lines 257 and 304) are shown only to the owner or the taken bidder; Accept is offered exactly to the owner of an open task with bids |
| `TaskDetail.BidCount` | src/pages/Tasks/TaskDetail.jsx:192 | the count is the bids' length, or 0 when there are none |
| `TaskDetail.AppendMessage` | src/pages/Tasks/TaskDetail.jsx:81-83 | an incoming message goes last and earlier ones are unchanged |
| `TaskDetail.ChatBox.Send` | src/pages/Tasks/TaskDetail.jsx:85-96 | blank input sends nothing and is kept; otherwise the untrimmed text is sent with the task id and the input is cleared |
| `CreateTask.AddFiles` | src/pages/Tasks/CreateTask.jsx:16-19 | new files go after the existing ones, both in order |
| `CreateTask.RemoveAttachment` | src/pages/Tasks/CreateTask.jsx:21-23 | removing never lengthens the list |
| `CreateTask.RemoveAttachmentSpec` | src/pages/Tasks/CreateTask.jsx:21-23 | an in-range index removes exactly that file and keeps the rest in order; any other index changes nothing |
| `CreateTask.TaskData` | src/pages/Tasks/CreateTask.jsx:28-32 | the task object has distinct keys, the form's texts, the numeric budget in place of the text one, and the current attachments |
| `CreateTask.TaskDataBody` | src/pages/Tasks/CreateTask.jsx:28-34 | the task goes out as multipart exactly when files are attached, with those files in order and each form field once |
| `CreateTask.TitleRulesAccept` | src/pages/Tasks/CreateTask.jsx:62-68 | a title is accepted exactly when it has 1 to 200 characters (200 is admitted although the message says "less than 200") |
| `CreateTask.DescriptionRulesAccept` | src/pages/Tasks/CreateTask.jsx:86 | a description is accepted exactly when it is not empty |
| `CreateTask.BudgetCheck` | src/pages/Tasks/CreateTask.jsx:105-111 | a budget is accepted exactly when given and at least 1, with 'Budget is required' or 'Budget must be at least $1' otherwise |
| `Navbar.UnreadCount` | src/components/Layout/Navbar.jsx:58 | the count is at most the list length, zero exactly when all are read, and the length exactly when none is |
| `Navbar.UnreadCountAppend` | src/components/Layout/Navbar.jsx:58 | the count over two lists is the sum of their counts |
| `Navbar.IsUnread` | src/components/Layout/Navbar.jsx:58 | a notification is unread exactly when its read time is missing or empty; `UnreadCount` counts these |
| `Navbar.Badge` | src/components/Layout/Navbar.jsx:159-161 | the badge is shown exactly when the count is positive; it reads '9+' above 9, else the count as one digit |
| `Navbar.CapitalizeAfter` | src/components/Layout/Navbar.jsx:186 | the left-to-right scan upper-cases exactly the characters that start a word |
| `Navbar.Capitalize` | src/components/Layout/Navbar.jsx:186 | `replace(/\b\w/g, …)` upper-cases each word-initial character and changes nothing else |
| `Navbar.CapitalizeAppend` | src/components/Layout/Navbar.jsx:186 | capitalising is local: a second piece only depends on whether the first ended inside a word |
| `Navbar.TypeLabel` | src/components/Layout/Navbar.jsx:186 | the label has the type's length |
| `Navbar.TypeLabelUnderscores` | src/components/Layout/Navbar.jsx:186 | only the first '_' becomes a space and starts a capitalised word; later ones stay, followed by lower case |
| `Navbar.TypeLabelStartsCapitalized` | src/components/Layout/Navbar.jsx:186 | a type starting with a letter gets a capital first letter |
| `Navbar.BodyText` | src/components/Layout/Navbar.jsx:189 | the body is the task title when present and non-empty, else the message |
| `Navbar.NotificationMenu.constructor` | src/components/Layout/Navbar.jsx:25-27 | the menu starts empty, closed, with a count of zero |
| `Navbar.NotificationMenu.FetchNotifications` | src/components/Layout/Navbar.jsx:54-62 | a reply replaces the list and the count follows it; a failure changes nothing |
| `Navbar.NotificationMenu.HandleNotificationClick` | src/components/Layout/Navbar.jsx:64-79 | only an unread entry is marked read (and refetched on success); the menu always closes; the page moves to /tasks/<taskId> only when the entry names one; the count stays equal to the list's unread count |
| `Stats.TasksWith` | src/pages/Dashboard/ClientDashboard.jsx:43 | the filter keeps exactly the tasks of that status |
| `Stats.TasksWithAppend` | src/pages/Dashboard/FreelancerDashboard.jsx:36 | filtering keeps the original order |
| `Stats.TwoStatusesBounded` | src/pages/Dashboard/ClientDashboard.jsx:43-44 | counts of two different statuses add up to at most the number of tasks |
| `Stats.ThreeStatusesBounded` | src/pages/Dashboard/AdminDashboard.jsx:59-61 | counts of three different statuses add up to at most the number of tasks |
| `Stats.CountPayments` | src/pages/Dashboard/ClientDashboard.jsx:46 | the pending count is at most the number of payments, and zero exactly when none is pending |
| `Stats.CountRole` | src/pages/Dashboard/AdminDashboard.jsx:56-57 | a role count is at most the number of accounts |
| `Stats.CountPaymentsAppend` | src/pages/Dashboard/ClientDashboard.jsx:46 | the pending count is a count: one payment counts 1 exactly when it has the status, and counts over a concatenation add up |
| `Stats.CountRoleAppend` | src/pages/Dashboard/AdminDashboard.jsx:56-57 | a role count is a count: one account counts 1 exactly when it has the role, and counts over a concatenation add up |
| `Stats.TwoRolesBounded` | src/pages/Dashboard/AdminDashboard.jsx:55-57 | clients plus freelancers are at most the number of accounts |
| `Stats.CompletedTotalOnlyCompleted` | src/pages/Dashboard/ClientDashboard.jsx:45 | only completed payments contribute, so with none the total is 0, and non-negative amounts give a non-negative total |
| `Stats.CompletedTotalAppend` | src/pages/Dashboard/FreelancerDashboard.jsx:47 | the total over a concatenation is the sum of the totals |
| `Stats.RevenueIsTenthOfPaid` | src/pages/Dashboard/AdminDashboard.jsx:62-63 | over exact arithmetic the platform fee is a tenth of the total paid |
| `Stats.Recent` | src/pages/Dashboard/ClientDashboard.jsx:150 | a recent list (also ClientDashboard.jsx:190, FreelancerDashboard.jsx:181, AdminDashboard.jsx:198 and 227) is the first five items in response order, or all of them when fewer |
| `ClientDashboard.ComputeStats` | src/pages/Dashboard/ClientDashboard.jsx:41-47 | total is the task count; active and completed count their statuses and together are at most the total; spent is the completed total; pending is at most the payments |
| `FreelancerDashboard.ActiveTasks` | src/pages/Dashboard/FreelancerDashboard.jsx:36 | the active list is exactly the tasks in progress |
| `FreelancerDashboard.AcceptanceRate` | src/pages/Dashboard/FreelancerDashboard.jsx:48 | the rate is 0 without bids, otherwise 100 × active tasks / bids, and never negative |
| `FreelancerDashboard.RateNotBounded` | src/pages/Dashboard/FreelancerDashboard.jsx:48 | the rate can exceed 100, since tasks in progress are counted independently of bids |
| `FreelancerDashboard.ComputeStats` | src/pages/Dashboard/FreelancerDashboard.jsx:44-49 | total bids is the bid count, active is the filtered list's length, earned is the completed total, and the rate is 0 with no bids |
| `FreelancerDashboard.BidBadge` | src/pages/Dashboard/FreelancerDashboard.jsx:188-193 | the badge is 'Accepted' exactly when the bid's task is in progress, else 'Pending' |
| `AdminDashboard.ComputeStats` | src/pages/Dashboard/AdminDashboard.jsx:54-64 | clients plus freelancers are at most the users; open, in-progress and completed are at most the tasks; revenue is a tenth of the paid total |
| `AdminDashboard.TaskStatusSeries` | src/pages/Dashboard/AdminDashboard.jsx:82-86 | the three status slices carry exactly the open, in-progress and completed counts |
| `AdminDashboard.UserTypeSeries` | src/pages/Dashboard/AdminDashboard.jsx:88-91 | the two user slices carry exactly the client and freelancer counts |
| `AdminDashboard.SeriesWithinTotals` | src/pages/Dashboard/AdminDashboard.jsx:82-91 | the charts never show more tasks or accounts than there are |
| `Dashboard.Select` | src/pages/Dashboard/Dashboard.jsx:9-28 | CLIENT, FREELANCER and ADMIN each select their own dashboard; any other role, or no user, gets Access Denied |

## Left out

- src/hooks/useSocket.js is not part of this model. It is socket plumbing, so sending a chat message is recorded as a (task id, text) pair and nothing more.
- src/pages/Auth/VerifyEmail.js, src/App.jsx's route table, the home page, the spinner, and all JSX and CSS are not part of this model. The one thing taken from the route table is that /tasks/:id is not behind a sign-in guard.
- Network calls are parameters. Examples are the current-user fetch, the login and verification replies, markAsRead, and the refresh endpoint's answer.
- A current-user reply is either a failed call or a `data` value that may be null. Each field of a login reply's `data` may be missing. A login reply with no `data` object throws when its token is read; the model treats it as a failed login. A verification reply's `user` object may be missing; the handler then throws after storing both tokens, with no sign-in and the fallback toast.
- The gateway's own effects are not composed into the callers' calls. Its storage changes are not composed into the session store's calls: a refresh during start-up or login can change the stored token without the store knowing. Its error toast (src/services/api.js:52-56) and its redirect to /login are not composed into page-level calls either. So a page operation such as `Profile.ProfilePage.ToggleVisibility` states only the page's own toast; the gateway may show another.
- Concurrent requests are left out. Two simultaneous 401s each run their own refresh, and the model runs one request at a time. `useEffect` scheduling, the un-awaited notification refetch and the dashboards' `Promise.all` are also left out.
- `register()` in AuthContext.jsx and the registration submit call are not modelled. Only its skills parsing is.
- Floating point is not modelled. Amounts are exact reals, and the model has no `parseFloat`, no `toFixed`, no `* 0.1` rounding, no MB sizes and no `toLocaleString`.
- FreelancerDashboard.AcceptanceRate: the rate is the exact quotient. The page shows it as a one-decimal string.
- The deadline "at least tomorrow" rule (src/pages/Tasks/CreateTask.jsx:131-138) and `formatDistanceToNow` depend on the clock, so they are left out.
- `trim`, `\b`, `\w` and the email pattern are modelled over ASCII. JavaScript's Unicode white space and its regex engine are not.
- String lengths count characters. JavaScript's `.length` counts UTF-16 code units, so the `minLength`/`maxLength` rules and the six-character code check in `Register.CodeRefusal` differ for text outside the Basic Multilingual Plane.
- Api.CreateTaskBody: it requires an `attachments` value that is a list of files. A non-array value there makes the source's `forEach` throw, and that case is not modelled.
- The base URL, the client's default `Content-Type: application/json` header (src/services/api.js:9), the `Content-Type` header of the multipart request, and the request bodies other than `createTask`'s are not modelled.
- A notification entry's date is not modelled. Nor are the dropdowns' open/close on outside clicks.
- The bid and accept handlers of the task page (src/pages/Tasks/TaskDetail.jsx:98-125) are left out: they only call the bid service, show a toast, reset the bid form and re-fetch the task, so they decide nothing the page's rules depend on. Their `Accept` and `Bid` visibility is modelled.
- TaskDetail.ShowsBids, `ShowsMessages`, `OffersAccept` and `PanelsAreRestricted` are stated over the corrected `hasAcceptedBid`, not over the page as written. Where the page renders they agree with it (`TaskDetail.PanelsAsWritten`). A signed-out visitor opening a task with bids gets a crashed page, not panels.
- A `null` task `clientId` is not modelled; `None` stands for an absent key only.

## Findings

| source | as written | input that shows it | evidently intended | confidence | as-written member | corrected member |
|---|---|---|---|---|---|---|
| src/pages/Tasks/TaskDetail.jsx:152 | `hasAcceptedBid` reads `user.id` inside the `some` callback without `?.`, while the route /tasks/:id is not guarded (src/App.jsx:28) and `user` is null when signed out or while start-up is still fetching it | a signed-out visitor opens a task that has one bid: the callback throws a TypeError and the page fails to render | `user?.id`, as on lines 149-151, so a missing visitor simply has no accepted bid | not executed | `TaskDetail.HasAcceptedBidAsWritten` | `TaskDetail.HasAcceptedBid` |

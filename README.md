# Gym administration front end — a Dafny model

This project models the client-side core of a gym-chain administration web
application:

- the session-aware API client: the request interceptor attaches the stored
  bearer token; the response interceptor ends the session on a 401;
  `makeRequest` toasts every failure and rethrows it;
- the authentication service;
- the generic fetch hook `useApi`;
- the authentication context `useAuth`;
- the `ProtectedRoute` guard;
- the searchable `DataTable`;
- the handlers and validators of the Login, Register, Workouts, Branches
  and Users pages.

The browser side of the program is one `Http.World` object:

- `token` is the `localStorage` entry `token`;
- `events` is an append-only log of what the user and the server observe:
  requests sent, toasts shown, full-page redirects (`window.location.href`)
  and router navigations.

The server's answer to each request is an explicit parameter (`outcome`).
The model therefore covers every answer, including the error paths.

Each page is a class whose fields are that page's React state. Each handler
is a method whose `ensures` states:

- the page's whole new state;
- the exact events appended to the log;
- what happens to the stored token.

The event sequences are pure functions (`Api.RequestEvents`,
`Api.ResponseEvents`, `UseAuth.LoginEvents`, `UseApi.Lifecycle`). The lemmas
about them count requests and toasts, and say when the user is sent to the
login page.

Modules follow the source files:

| module | models |
|---|---|
| `Api` | `src/services/api.ts` |
| `UseApi` | `src/hooks/useApi.tsx` |
| `UseAuth` | `src/hooks/useAuth.tsx` |
| `DataTable` | `src/components/DataTable.tsx` |
| `ProtectedRoute` | `src/components/ProtectedRoute.tsx` |
| `LoginPage`, `RegisterPage`, `WorkoutsPage`, `BranchesPage`, `UsersPage` | the pages |
| shared: `Wrappers` | `Option` and `Result` |
| shared: `Types` | the records of `src/types` |
| shared: `Http` | verbs, routes, payloads, failures, events and the `World` |
| shared: `Text` | ASCII case mapping, substring search, the JavaScript `\s` class, the email pattern `\S+@\S+\.\S+` and UTF-16 length |

## Where the code and its description differ (the model follows the code)

- **Empty search term.** `DataTable` with an empty search term drops rows
  that have no fields: `some` over an empty list is false.
  `DataTable.MatchesEmptyTerm` and `DataTable.FilterEmptyTerm` state this.
- **A 401 during login.** A failed login answered with 401 does leave the
  page: the response interceptor sets `window.location.href` to `/login`.
  `UseAuth.FailedLoginStaysPut` states that no router navigation happens,
  and that a redirect happens exactly on a 401.

## Model

| member | source | states |
|---|---|---|
| Api.Truthy | src/services/api.ts:19 | JavaScript truthiness of the stored token, `if (token)`: present and non-empty; the same test is `authService.isAuthenticated` (`!!token`, lines 85-87) |
| Api.Unauthorized | src/services/api.ts:31 | `error.response?.status === 401`: an Axios failure with a response whose status is 401 |
| Api.ResponseEvents | src/services/api.ts:28-54 | nothing on success; on failure the last event is `makeRequest`'s toast of `FailureText`, preceded by the session-expired toast and the `/login` redirect exactly on a 401 |
| Api.RequestEvents | src/services/api.ts:42-55 | one call's events: the request sent with the interceptor's header, then the response events |
| Api.AuthorizationHeader | src/services/api.ts:16-25 | a header is attached exactly when the stored token is truthy, and it is `Bearer ` followed by the token |
| Api.AuthorizationCarriesToken | src/services/api.ts:18-21 | the header carries exactly the stored token; no header goes out when `isAuthenticated` would be false |
| Api.AxiosMessage | src/services/api.ts:48 | the toast text is never empty; server message first, then the Axios message, then "An error occurred" |
| Api.FailureText | src/services/api.ts:46-54 | never empty; a non-Axios failure yields "An unexpected error occurred" |
| Api.TokenAfter | src/services/api.ts:31-33 | the token survives every answer but a 401, which removes it |
| Api.OneRequestPerCall | src/services/api.ts:42-45 | one `makeRequest` call sends exactly one request, with the header for the token stored when it was sent |
| Api.NotificationsPerCall | src/services/api.ts:28-54 | success shows no toast; a failure toasts its text exactly once, after "Session expired" when it was a 401 |
| Api.RedirectOnlyOn401 | src/services/api.ts:31-37 | a call redirects to `/login` if and only if its answer was a 401 |
| Api.Dispatch | src/services/api.ts:16-25 | the request interceptor leaves the token alone and sends one request with the current header |
| Api.Receive | src/services/api.ts:28-54 | the answer is returned unchanged; the token per `TokenAfter`; the log grows by the response notifications |
| Api.MakeRequest | src/services/api.ts:42-55 | the answer is returned unchanged; the log grows by the request followed by its notifications |
| Api.Login | src/services/api.ts:59-67 | the returned token is stored only after a successful request; a failure leaves the token to the interceptor |
| Api.Register | src/services/api.ts:69-78 | registering sends one request and stores no token |
| Api.Logout | src/services/api.ts:80-83 | the token is removed and the page goes to `/login`, without a request |
| Http.World.constructor | src/services/api.ts:18 | the world starts with the stored token and an empty log |
| UseApi.Lifecycle | src/hooks/useApi.tsx:11-25 | the four states of one `fetchData`: loading on, error cleared, data or error stored, loading off |
| UseApi.LifecycleOrder | src/hooks/useApi.tsx:11-25 | loading stays on until the last step; the old error is cleared before the request; only this call's failure comes back; a failure keeps the old data |
| UseApi.FetchHook.constructor | src/hooks/useApi.tsx:6-9 | no data, no error; loading exactly when the fetch is immediate |
| UseApi.FetchHook.Execute | src/hooks/useApi.tsx:11-25 | success stores the data; failure keeps the data and stores the error; loading ends off; the states passed through are the lifecycle; one request goes out |
| UseApi.FetchHook.Mount | src/hooks/useApi.tsx:27-31 | the first mount of an immediate hook runs one fetch; otherwise nothing changes |
| UseAuth.LoginEvents | src/hooks/useAuth.tsx:32-44 | the events of one `login`: the request's events, then, only on success, the success toast and the navigation to `/dashboard` |
| UseAuth.RegisterEvents | src/hooks/useAuth.tsx:46-57 | the events of one `register`: the request's events, then, only on success, the success toast and the navigation to `/login` |
| UseAuth.FailedLoginStaysPut | src/hooks/useAuth.tsx:32-44 | a failed login never navigates; it redirects to `/login` exactly when the answer was a 401 |
| UseAuth.AuthProvider.constructor | src/hooks/useAuth.tsx:17-19 | not authenticated and loading before the check |
| UseAuth.AuthProvider.CheckAuth | src/hooks/useAuth.tsx:22-30 | authenticated exactly when the stored token is truthy; loading off |
| UseAuth.AuthProvider.Login | src/hooks/useAuth.tsx:32-44 | success authenticates, stores the token, toasts and navigates to `/dashboard`; failure is swallowed; loading ends off |
| UseAuth.AuthProvider.Register | src/hooks/useAuth.tsx:46-57 | the session is unchanged; success toasts and navigates to `/login`; loading ends off |
| UseAuth.AuthProvider.Logout | src/hooks/useAuth.tsx:59-63 | the token is gone; not authenticated; redirect, then the logout toast |
| UseAuth.UseAuth | src/hooks/useAuth.tsx:74-80 | returns the context when there is a provider; otherwise fails with the provider error text |
| ProtectedRoute.Guard | src/components/ProtectedRoute.tsx:6-27 | spinner while loading; outlet when authenticated; otherwise a replacing redirect to `/login` that carries the current location |
| DataTable.Matches | src/components/DataTable.tsx:26-28 | a row is kept when some value, lower-cased, includes the lower-cased term |
| DataTable.Filter | src/components/DataTable.tsx:25-29 | the rows kept are exactly the rows that match, and no more rows than given |
| DataTable.FilterCounts | src/components/DataTable.tsx:25-29 | every matching row is kept exactly as many times as it occurs, duplicates included; no other row is kept |
| DataTable.FilterIsSubsequence | src/components/DataTable.tsx:25-29 | filtering keeps the rows in their original order |
| DataTable.FilterIdempotent | src/components/DataTable.tsx:25-29 | filtering twice by the same term equals filtering once |
| DataTable.FilterAllMatch | src/components/DataTable.tsx:25-29 | when every row matches, the table shows all rows |
| DataTable.MatchesEmptyTerm | src/components/DataTable.tsx:26-28 | the empty term matches exactly the rows with at least one field |
| DataTable.FilterEmptyTerm | src/components/DataTable.tsx:26-28 | the empty term keeps exactly the rows with fields, hence all rows when none is empty |
| DataTable.FilterSameLowerTerm | src/components/DataTable.tsx:27 | two terms with the same lower-case form filter identically |
| DataTable.FilterIgnoresTermCase | src/components/DataTable.tsx:27 | upper- or lower-casing the search term does not change the result |
| DataTable.MatchesIgnoresValueCase | src/components/DataTable.tsx:27 | the case of the cell values does not affect matching |
| DataTable.Lookup | src/components/DataTable.tsx:40-41 | the first field with the key, or "undefined" when none has it |
| DataTable.RenderCell | src/components/DataTable.tsx:31-42 | a custom cell wins, then a derived accessor, then the keyed value as text |
| DataTable.CellOverridesAccessor | src/components/DataTable.tsx:32-34 | with a custom cell the accessor is irrelevant |
| DataTable.ColSpan | src/components/DataTable.tsx:74 | the placeholder cell spans the columns plus one for the actions column when actions are given (also line 83) |
| DataTable.Header | src/components/DataTable.tsx:59-67 | one heading per column in order, plus "Actions" exactly when actions are given |
| DataTable.RowOf | src/components/DataTable.tsx:90-105 | a data row has one rendered cell per column and an action cell exactly when actions are given |
| DataTable.Body | src/components/DataTable.tsx:70-107 | loading shows one "Loading..." row; otherwise no matches show one "No data found" row; otherwise one row per filtered item in order |
| DataTable.BodyWidth | src/components/DataTable.tsx:71-88 | every placeholder row spans all columns plus the actions column |
| DataTable.CentralMatchesDowntown | src/components/DataTable.tsx:25-29 | a branch with location "Downtown" matches the term "downtown" |
| DataTable.CentralMissesUptown | src/components/DataTable.tsx:25-29 | the same branch does not match "uptown" |
| DataTable.FilterSingle | src/components/DataTable.tsx:25-29 | a one-row table keeps its row exactly when it matches |
| DataTable.DowntownCase | src/components/DataTable.tsx:27 | "DOWNTOWN" and "downtown" have the same lower-case form |
| DataTable.BranchSearchExample | src/components/DataTable.tsx:25-29 | searching "downtown" or "DOWNTOWN" keeps the branch; "uptown" empties the table |
| Text.LowerChar | src/components/DataTable.tsx:27 | capitals move down by 32; every other character is unchanged |
| Text.UpperChar | src/pages/Users.tsx:126 | small letters move up by 32; every other character is unchanged |
| Text.Lower | src/components/DataTable.tsx:27 | same length, lower-cased character by character |
| Text.Upper | src/pages/Users.tsx:126 | same length, upper-cased character by character |
| Text.LowerNoCapitals | src/components/DataTable.tsx:27 | a string with no capitals is its own lower case |
| Text.LowerOfUpper | src/components/DataTable.tsx:27 | lower-casing after upper-casing equals lower-casing |
| Text.UpperOfLower | src/pages/Users.tsx:126 | upper-casing after lower-casing equals upper-casing |
| Text.LowerIdempotent | src/components/DataTable.tsx:27 | lower-casing twice equals once |
| Text.Contains | src/components/DataTable.tsx:27 | `includes`: the needle occurs at some position of the string, the empty needle at position 0 |
| Text.ContainsEmpty | src/components/DataTable.tsx:27 | every string includes the empty string |
| Text.ContainsFirstChar | src/components/DataTable.tsx:27 | a string that includes a non-empty needle contains the needle's first character |
| Text.IsSpace | src/pages/Login.tsx:21 | the `\s` class of JavaScript regular expressions: the ECMAScript white-space and line-terminator characters |
| Text.EmailMatchAt | src/pages/Login.tsx:21 | one way `\S+@\S+\.\S+` matches: a non-space before the `@`, only non-spaces up to a `.`, and a non-space after it |
| Text.MatchesEmail | src/pages/Login.tsx:21 | `/\S+@\S+\.\S+/.test(email)`, unanchored, as also used at src/pages/Register.tsx lines 52 and 66 |
| Text.EmailUnanchored | src/pages/Login.tsx:21 | the unanchored email pattern still matches when text is added before and after a match |
| Text.EmailNeedsAt | src/pages/Login.tsx:21 | a match has an `@` with at least one character before it and three after |
| Text.EmailTooShort | src/pages/Login.tsx:21 | nothing shorter than five characters matches |
| Text.EmailExample | src/pages/Login.tsx:21 | "c@x.com" matches; "c@x" and "c @x.com" do not |
| Text.Utf16Length | src/pages/Register.tsx:74 | the length counted in UTF-16 units is between one and two units per character, and equals the character count when every character is in the Basic Multilingual Plane |
| LoginPage.LoginErrors | src/pages/Login.tsx:18-29 | an email error exactly when the email is empty ("required") or malformed ("invalid"); a password error exactly when the password is empty |
| LoginPage.LoginValidIff | src/pages/Login.tsx:14-33 | the form is valid if and only if the email is well formed and the password is non-empty |
| LoginPage.ValidateForm | src/pages/Login.tsx:14-33 | the errors built step by step are `LoginErrors`, and the result is true exactly when there are none |
| LoginPage.LoginForm.constructor | src/pages/Login.tsx:9-11 | empty fields and no errors |
| LoginPage.LoginForm.HandleSubmit | src/pages/Login.tsx:35-44 | shows the errors; an invalid form changes nothing else; a valid one runs the provider's login, storing the returned token on success and leaving the token to the interceptor on failure |
| RegisterPage.EmailProblem | src/pages/Register.tsx:49-55 | an email problem exactly when the email is empty (the field's required text) or malformed ("Email is invalid") |
| RegisterPage.Problem | src/pages/Register.tsx:43-82 | the message, if any, each of the six checks gives its field |
| RegisterPage.RegisterErrors | src/pages/Register.tsx:43-82 | per field: each required check, the email pattern, the password length of 6, and the confirmation mismatch, each with its own text |
| RegisterPage.RegisterValidIff | src/pages/Register.tsx:41-85 | the form is valid if and only if all six field conditions hold |
| RegisterPage.CheckBranchFields | src/pages/Register.tsx:43-60 | after the branch fields, the errors and the flag agree with `RegisterErrors` on those three fields |
| RegisterPage.CheckUserFields | src/pages/Register.tsx:62-82 | after the user fields, the errors and the flag agree with `RegisterErrors` on all six fields |
| RegisterPage.ValidateForm | src/pages/Register.tsx:32-86 | the errors are `RegisterErrors`, and the result is true exactly when there are none |
| RegisterPage.RegisterForm.constructor | src/pages/Register.tsx:10-28 | empty fields, role "ADMIN", no errors |
| RegisterPage.RegisterForm.HandleSubmit | src/pages/Register.tsx:88-110 | shows the errors; an invalid form changes nothing else; a valid one registers the branch and the user with the chosen role, and the token changes only by a 401 |
| WorkoutsPage.Positive | src/pages/Workouts.tsx:112 | neither `isNaN(Number(duration))` nor `Number(duration) <= 0` |
| WorkoutsPage.HasId | src/pages/Workouts.tsx:169 | `currentWorkout?.id` is truthy: a workout is selected and its id is present and non-zero (also line 192) |
| WorkoutsPage.WorkoutErrors | src/pages/Workouts.tsx:100-119 | a type error exactly when the type is empty; a duration error exactly when it is empty ("required") or not a positive number |
| WorkoutsPage.ValidateForm | src/pages/Workouts.tsx:100-119 | the errors are `WorkoutErrors`, and the result is true exactly when there are none |
| WorkoutsPage.WorkoutValidIff | src/pages/Workouts.tsx:102-118 | valid if and only if there is a type and the duration is a positive number |
| WorkoutsPage.PrefillValidates | src/pages/Workouts.tsx:152-158 | when `Number(String(duration))` gives the duration back (and the text is non-empty), a form prefilled from a workout is valid exactly when the workout has a type and a positive duration |
| WorkoutsPage.WorkoutsPageState.constructor | src/pages/Workouts.tsx:32-42 | empty forms, closed dialogs, no selection |
| WorkoutsPage.WorkoutsPageState.HandleSubmit | src/pages/Workouts.tsx:121-150 | an invalid form only shows errors; a valid one adds the workout with the numeric duration; success resets the form, reloads and toasts |
| WorkoutsPage.WorkoutsPageState.HandleEdit | src/pages/Workouts.tsx:152-159 | selects the workout, prefills type and duration text, opens the edit dialog |
| WorkoutsPage.WorkoutsPageState.HandleDelete | src/pages/Workouts.tsx:161-164 | selects the workout and opens the delete dialog |
| WorkoutsPage.WorkoutsPageState.HandleEditSubmit | src/pages/Workouts.tsx:166-189 | nothing without a non-zero id; then validation; a valid form updates; only success closes the dialog, reloads and toasts |
| WorkoutsPage.WorkoutsPageState.HandleDeleteConfirm | src/pages/Workouts.tsx:191-207 | nothing without a non-zero id; otherwise delete; only success closes the dialog, reloads and toasts |
| BranchesPage.DeleteFailureText | src/pages/Branches.tsx:112-117 | a 409 shows its `x-error-message` header when non-empty, else the conflict text; any other failure shows the generic text |
| BranchesPage.ConflictHeaderShown | src/pages/Branches.tsx:112-114 | a 409 whose `x-error-message` header is non-empty shows the header's own text; a missing or empty header shows the fixed conflict text |
| BranchesPage.BranchesPageState.constructor | src/pages/Branches.tsx:31-61 | empty list, no error, closed dialogs, empty form |
| BranchesPage.BranchesPageState.FetchBranches | src/pages/Branches.tsx:35-47 | success replaces the list and clears the error; failure keeps the list and sets the load error; loading ends off |
| BranchesPage.BranchesPageState.HandleEdit | src/pages/Branches.tsx:63-71 | selects the branch, copies its fields to the form, opens the dialog |
| BranchesPage.BranchesPageState.HandleDelete | src/pages/Branches.tsx:73-76 | selects the branch and opens the delete dialog |
| BranchesPage.BranchesPageState.HandleEditSubmit | src/pages/Branches.tsx:78-97 | nothing without a selection; otherwise update; success closes the dialog, toasts and reloads; failure toasts the update error |
| BranchesPage.BranchesPageState.HandleDeleteConfirm | src/pages/Branches.tsx:99-121 | nothing without a selection; otherwise delete; success closes the dialog, toasts and reloads; failure toasts `DeleteFailureText` |
| UsersPage.RoleBadgeClass | src/pages/Users.tsx:125-136 | each badge colour is chosen if and only if the upper-cased role is ADMIN, MANAGER or TRAINER, and grey for any other role |
| UsersPage.RoleBadgeIgnoresCase | src/pages/Users.tsx:126 | lower- or upper-casing the role does not change its badge |
| UsersPage.RoleBadgeExamples | src/pages/Users.tsx:125-136 | "admin" is red, "Trainer" green, "MEMBER" grey |
| UsersPage.BranchIdOrZero | src/pages/Users.tsx:75 | zero exactly when the user has no branch, no branch id, or branch id 0; otherwise that id |
| UsersPage.UsersPageState.constructor | src/pages/Users.tsx:33-68 | empty lists, no error, closed dialogs, empty form |
| UsersPage.UsersPageState.FetchData | src/pages/Users.tsx:38-54 | both requests go out first; both lists are replaced only when both succeed; any failure keeps both lists and sets the load error |
| UsersPage.UsersPageState.HandleEdit | src/pages/Users.tsx:70-78 | selects the user, prefills email, role and branch id, opens the dialog |
| UsersPage.UsersPageState.HandleDelete | src/pages/Users.tsx:80-83 | selects the user and opens the delete dialog |
| UsersPage.UsersPageState.HandleEditSubmit | src/pages/Users.tsx:85-104 | nothing without a selection; otherwise update; success closes the dialog, toasts and reloads; failure toasts the update error |
| UsersPage.UsersPageState.HandleDeleteConfirm | src/pages/Users.tsx:106-123 | nothing without a selection; otherwise delete; success closes the dialog, toasts and reloads; failure toasts the delete error |

Specification helpers with no counterpart in the source, used only to state
the properties above: `Api.BearerToken` (reads a token back out of an
`Authorization` value, the inverse of the interceptor's header),
`DataTable.UpperFields` (up-cases a row's values, to state that matching
ignores their case), `Http.Toasts` and `Http.Requests` (the toasts and
the requests of an event log), and the lemmas about those two projections,
`Http.ToastsAppend`, `Http.RequestsAppend` and `Http.NoRequests`, which are
proof steps for `Api.OneRequestPerCall` and `Api.NotificationsPerCall`.

## Left out

- Rendering: the JSX markup, class names and icons are not modelled. Only
  the guard's choice of view, the table's header and rows, and the badge
  class are.
- Browser libraries: Axios transport, the base URL, `localStorage`, the
  toast library and the router are replaced by `Http.World`. The server's
  answer is a parameter.
- React scheduling: React batches state updates and renders
  asynchronously. Here each setter is one assignment, and a handler runs to
  completion.
- Users-page `Promise.all`: both requests are sent first. The users answer
  is handled before the branches answer. Any other interleaving of the two
  responses' notifications is not modelled.
- `Number()` and `String()`: on durations they are the page parameters
  `numberOf` and `numberText`. JavaScript's number parsing and printing
  are not modelled.
- `toLowerCase` and `toUpperCase`: only ASCII letters are mapped. Other
  Unicode case mappings are not modelled.
- `DataTable.Filter`: each row is a list of already-stringified field
  values. `String()` of nested objects (for example `[object Object]`) is
  not modelled.
- Un-awaited reloads: a `refetch()` or fetch a handler starts without
  awaiting it is counted in the page's `reloads`. Its own request is a
  separate `FetchHook.Execute`, `FetchBranches` or `FetchData` call.
- Page mount effects: the first load of the Branches and Users pages is one
  call of `FetchBranches` or `FetchData`. The Workouts page's list is a
  `UseApi.FetchHook`.
- Routes: a request's URL is kept as a collection name plus an optional id,
  not as the concatenated path string.
- The request interceptor's error handler (`Promise.reject` of a failed
  configuration) is not modelled. It has no behaviour of its own.
- The service wrappers (`Api.AllBranches`, `Api.UpdateUser`, and the
  others) only build descriptors and have no contracts.
- `UseAuth.AuthProvider.Login`, `UseAuth.AuthProvider.Register`: the
  intermediate `isLoading = true` while the request runs is not part of
  the contract. Only the final value is stated.
- `console.error` logging is not modelled.
- Out of scope: Navbar, Layout, Home, Dashboard, DashboardCard, Profile and
  the application's route table.

# Session, CSRF and account rules of the Dr-Atif-Shahzad site, in Dafny

This project models the parts of the Dr-Atif-Shahzad web application that carry real logic, and proves properties of those models.

- **Session manager (`AuthProvider`, React front end).** It holds:
  - the signed-in user;
  - the `loading` and `isInitialized` flags;
  - the anti-forgery (CSRF) token, stored under three header aliases of its own axios client;
  - the 401 interceptor's `isRefreshing` flag and `failedQueue`.

  On a 401 the interceptor refreshes the session once. Requests that fail while that refresh runs are queued and settled in one drain.
- **CSRF retry interceptor (`useApi`).** A 403 whose body `msg` contains `CSRF` triggers one token refetch and one replay of the request.
- **NCAAA student-results table.** Covers CSV validation, row mapping, single-cell edits and the upload step.
- **ORCID works endpoint (Flask back end).** `safe_get`, and the mapping of the upstream ORCID JSON to a list of work records.
- **Django user accounts.**
  - the `Roles` enumeration and the unique columns;
  - the post-save rule that creates student and faculty profiles;
  - `create_user` and `create_superuser`;
  - the registration serializer's password-key renaming;
  - the user serializer's profile data;
  - the two role permissions.

Files:

- `Wrappers.dfy`: `Option` and `Result`.
- `Http.dfy`: request configurations (with their `_retry` / `_csrfRetry` marks), error responses, interceptor outcomes, JavaScript truthiness, `includes`.
- `Api.dfy`: the `Client` class, with its defaults and common header map, and the 403 interceptor.
- `Auth.dfy`: the session rules as values: the state of `AuthProvider` and its 401 interceptor, each operation as a function of that state and of the server's answers, and the lemmas about them.
- `AuthProvider.dfy`: the `AuthSession` class, whose methods are proved equal to those functions.
- `StudentResults.dfy`: the CSV rules.
- `Orcid.dfy`: JSON values, `safe_get` and `get_works`.
- `PyValues.dfy`: Python scalars, exceptions and truthiness.
- `UserModels.dfy`, `UserManagers.dfy`, `UserSerializers.dfy`, `UserPermissions.dfy`: the Django users app.

How the asynchronous code is modelled:

- **The server is a parameter.** `net` maps each request configuration to its answer: a body, or an error with or without a response. The provider's own requests (`/csrf-token`, `/me`, `/refresh`, `/login`, `/register`, `/logout`, `/change-password`) go through its client, so the 401 interceptor sees their failures too.
- **A queued request is `Pending`.** An operation runs to its end or stops at `Pending`: one of its requests was queued behind the refresh in flight, and the operation is not settled within this call. When that refresh settles, the drain replays or rejects the queued request (`QueuedRequestIsDrained`). When the request is queued behind the very refresh that waits for it, nothing drains the queue: the session is `stalled` and `Pending` is final.
- **Concurrent 401s of the provider's own requests.** The interceptor sits on the provider's own client, which no other component sees. When several of the provider's operations run at once (the `/me` of `initialize`, a `/login`, the timer's `/refresh`) and their requests fail together, the interceptor is split at its `await`: `OnResponseError` before it and `SettleRefresh` after it. `UnauthorizedBurst` interleaves the two.
- **The evidently intended variant.** `exemptRefreshCalls` switches the interceptor to pass on the 401s of `/refresh` and `/csrf-token`. `false` is the code as written.
- **Request configurations are values.** axios copies a configuration's own properties when it replays a request, so a `_retry` or `_csrfRetry` mark travels with the replayed copy.
- **One client per provider.** `useApi` builds a new axios instance for every component that calls it. Each `AuthSession` therefore owns its own `Client`, and nothing assumes the header map is shared.
- **Python exceptions are results.** Unexpected JSON shapes make `get_works` raise (`AttributeError`, `IndexError`, `KeyError`, `TypeError`), and the model returns these as results. The Django code's `ValueError`, `TypeError` and unique-constraint `IntegrityError` are results too.

## Model

| member | source | states |
|---|---|---|
| Http.DecimalString | frontend/src/Context/AuthContext.jsx:303 | the status in decimal digits, without leading zeros, whose value is the status |
| Http.ContainsIffOccurs | frontend/src/hooks/useApi.js:114 | `includes` holds exactly when the substring occurs at some index (case-sensitive) |
| Api.BaseUrl | frontend/src/hooks/useApi.js:22 | the configured base URL when it is a non-empty string, `/api` otherwise; never empty |
| Api.WithCsrfToken | frontend/src/hooks/useApi.js:130-132 | after the write, all three aliases hold the same non-empty token; the only keys added are the three aliases, and every other header is unchanged |
| Api.WithoutCsrfToken | frontend/src/Context/AuthContext.jsx:358-360 | after the delete, none of the three aliases is present; every other header is unchanged |
| Api.ClearThenStore | frontend/src/Context/AuthContext.jsx:38-40 | clearing twice equals clearing once (logout can be repeated); storing after a clear equals storing; clearing after a store equals clearing |
| Api.CsrfStage | frontend/src/hooks/useApi.js:110-120 | a token fetch starts if and only if the status is 403, `msg` contains "CSRF" and `_csrfRetry` is unset; the request is then marked `_csrfRetry`, otherwise the error passes on unchanged |
| Api.AtMostOneCsrfReplay | frontend/src/hooks/useApi.js:115-120 | any failure of a marked replay is passed on, so a request gets at most one CSRF replay |
| Api.OtherFailuresPassOn | frontend/src/hooks/useApi.js:144-145 | a non-403 failure (a 401 included), or a 403 without the marker, is rejected unchanged |
| Api.Client.constructor | frontend/src/hooks/useApi.js:38-59 | base URL, 15000 ms timeout, credentials on, JSON content type, XSRF cookie and header names; no CSRF header |
| Api.Client.StoreCsrfToken | frontend/src/hooks/useApi.js:130-132 | the headers become `WithCsrfToken` of the old headers; the three aliases agree |
| Api.Client.ClearCsrfToken | frontend/src/Context/AuthContext.jsx:358-360 | the headers become `WithoutCsrfToken` of the old headers |
| Api.Client.SettleCsrfRetry | frontend/src/hooks/useApi.js:122-145 | with a truthy fetched token: the token is stored under all aliases and the marked request is replayed once. With no token, or a fetch that threw: headers unchanged and the original error rejected |
| Auth.UserOf | frontend/src/Context/AuthContext.jsx:63-70 | the user is set exactly when the settled response carries one; null on any error |
| Auth.LoginError | frontend/src/Context/AuthContext.jsx:300-303 | the message is, in order of preference: server `error`, server `message`, `Login failed (status)`, then the fixed text when there is no response |
| Auth.RegisterError | frontend/src/Context/AuthContext.jsx:336 | server `error` if truthy, else "Registration failed" |
| Auth.LoginResult | frontend/src/Context/AuthContext.jsx:290-306 | signed in exactly when the settled response carries a user, with that user; "Invalid response from server" for a response without one; `LoginError` of the error response on failure |
| Auth.RegisterResult | frontend/src/Context/AuthContext.jsx:325-338 | as `LoginResult`, with "Registration failed" and `RegisterError` |
| Auth.PasswordResultOf | frontend/src/Context/AuthContext.jsx:377-391 | success exactly when the request settled without error. On success: the server message if truthy, else "Password changed successfully". On failure: the server `error` if truthy, else "Password change failed". Never empty |
| Auth.DrainSettlesEachOnce | frontend/src/Context/AuthContext.jsx:159-168 | the drain settles every queued entry once, in order: all replayed with a null error, all rejected with it otherwise |
| Auth.DrainAppend | frontend/src/Context/AuthContext.jsx:160-166 | an entry queued last settles after all earlier ones |
| Auth.SendOn | frontend/src/Context/AuthContext.jsx:170-215 | while a refresh is in flight, a request through the interceptor leaves it in flight, keeps the queue as a prefix, and leaves a stalled refresh stalled |
| Auth.RefreshOn | frontend/src/Context/AuthContext.jsx:92-108 | the same for `refreshAccessToken` |
| Auth.FetchCsrfTokenOn | frontend/src/Context/AuthContext.jsx:32-51 | the same for `fetchCsrfToken` |
| Auth.FetchCurrentUserOn | frontend/src/Context/AuthContext.jsx:61-72 | the same for `fetchCurrentUser` |
| Auth.FetchCurrentUserFromIdle | frontend/src/Context/AuthContext.jsx:61-72 | from an idle session `fetchCurrentUser` sets the user `/me` returns (after the refresh and replay when `/me` is taken over), clears it when `/me` or the refresh fails, changes nothing else but the refresh's token, finishes exactly when not stalled, and always finishes with the refresh's requests exempted |
| Auth.InitializeOn | frontend/src/Context/AuthContext.jsx:235-244 | the same for `initialize` |
| Auth.AuthenticateOn | frontend/src/Context/AuthContext.jsx:286-341 | the same for the shared part of `login` and `register` |
| Auth.FinishAuthenticationOn | frontend/src/Context/AuthContext.jsx:292-309 | the same for their part after the request |
| Auth.LoginOn | frontend/src/Context/AuthContext.jsx:286-312 | the same for `login` |
| Auth.RegisterOn | frontend/src/Context/AuthContext.jsx:321-344 | the same for `register` |
| Auth.LogoutOn | frontend/src/Context/AuthContext.jsx:350-365 | the same for `logout` |
| Auth.ChangePasswordOn | frontend/src/Context/AuthContext.jsx:375-394 | the same for `changePassword` |
| Auth.RefreshWhileRefreshing | frontend/src/Context/AuthContext.jsx:92-184 | a refresh run while the interceptor's refresh is in flight comes to `RefreshVerdict`. It is pending exactly when its `/refresh` or token request is a fresh 401, which is then queued behind the refresh in flight (behind itself when that refresh is the one awaiting it). Otherwise it succeeds exactly when `/refresh` answers with a user. The new state is given in full: the `/refresh` user, the token only on success, the queue plus `ParkedBy` |
| Auth.AwaitRefreshSettles | frontend/src/Context/AuthContext.jsx:186-211 | pending and stalled exactly when `RefreshVerdict` is pending, with nothing drained. On success: refresh over, queue resolved in order, marked original replayed, token stored. On failure: queue rejected with "Token refresh failed", user null, original rejected with its own error. The `catch` branch is never taken |
| Auth.SendFromIdle | frontend/src/Context/AuthContext.jsx:170-215 | from an idle session: a request the interceptor leaves alone settles directly and changes nothing. One it takes over either stalls, or settles with the marked replay's answer after a successful refresh, or is rejected with its own error and the user cleared. Pending exactly when stalled; idle again once settled; never pending with the refresh's requests exempted |
| Auth.FetchCsrfTokenFromIdle | frontend/src/Context/AuthContext.jsx:32-51 | when `/csrf-token` is not taken over, the server's token is returned and a truthy one stored under the three aliases; pending exactly when stalled |
| Auth.RefreshFromIdle | frontend/src/Context/AuthContext.jsx:92-131 | a refresh from an idle session (the ten-minute timer) succeeds, with exemption, exactly when `/refresh` answers with a user. As written, a 401 from `/refresh` leaves it waiting on itself for good |
| Auth.InitializeFromIdle | frontend/src/Context/AuthContext.jsx:235-244 | `initialize` finishes (initialised, not loading, idle) unless the interceptor stalls, and always with exemption. When neither request is taken over: the server's token and the `/me` user |
| Auth.AnonymousVisitorNeverInitialised | frontend/src/Context/AuthContext.jsx:176-191 | as written, with 401 from `/me` and `/refresh`, `initialize` never finishes: still loading, never initialised, `/refresh` queued behind its own refresh |
| Auth.AnonymousVisitorInitialisedWhenExempt | frontend/src/Context/AuthContext.jsx:235-244 | with the refresh's requests exempted, the same visitor is initialised, not loading, signed out, and the interceptor is idle |
| Auth.AuthenticateFromIdle | frontend/src/Context/AuthContext.jsx:286-341 | `login`/`register` settle with the direct answer, the marked replay's answer after a successful refresh, or the original error after a failed one (user cleared). A response with a user signs it in unless its token refetch is taken over. A refusal the interceptor does not touch changes nothing but `loading` |
| Auth.LoginRefusedYetSignedIn | frontend/src/Context/AuthContext.jsx:286-306 | a login refused with 401 while the refresh cookie is valid reports failure, yet the session holds the cookie's user |
| Auth.LogoutFromIdle | frontend/src/Context/AuthContext.jsx:350-365 | once `logout` finishes: the aliases gone from the original headers, user null, not loading. As written, with 401 from `/logout` and `/refresh`, it never finishes and the user stays signed in |
| Auth.ChangePasswordFromIdle | frontend/src/Context/AuthContext.jsx:375-391 | never throws and never touches `loading`. When not taken over it changes no session state and returns `PasswordResultOf` of the answer |
| Auth.QueuedRequestIsDrained | frontend/src/Context/AuthContext.jsx:159-183 | a request taken over while a refresh is in flight is queued last and the call is pending; when that refresh settles, the drain ends with the request's replay on success, or with its rejection by `TokenRefreshFailed` on failure |
| Auth.StallIsPermanent | frontend/src/Context/AuthContext.jsx:176-184 | a stalled refresh stays stalled and in flight through `logout`, `initialize`, `login` and `refreshAccessToken`, and the queue only grows |
| AuthProvider.AuthSession.constructor | frontend/src/Context/AuthContext.jsx:7-153 | no user, loading, not initialised, no refresh in flight, empty queue, not stalled, own client with no CSRF header |
| AuthProvider.AuthSession.Send | frontend/src/Context/AuthContext.jsx:170-215 | the new state and result are `SendOn` of the old state |
| AuthProvider.AuthSession.AwaitRefresh | frontend/src/Context/AuthContext.jsx:190-211 | the new state and outcomes are `AwaitRefreshOn` of the old state |
| AuthProvider.AuthSession.RefreshAccessToken | frontend/src/Context/AuthContext.jsx:92-108 | the new state and result are `RefreshOn` of the old state |
| AuthProvider.AuthSession.FetchCsrfToken | frontend/src/Context/AuthContext.jsx:32-51 | the new state and result are `FetchCsrfTokenOn` of the old state |
| AuthProvider.AuthSession.FetchCurrentUser | frontend/src/Context/AuthContext.jsx:61-80 | the new state and result are `FetchCurrentUserOn` of the old state |
| AuthProvider.AuthSession.Initialize | frontend/src/Context/AuthContext.jsx:235-244 | the new state and result are `InitializeOn` of the old state |
| AuthProvider.AuthSession.Authenticate | frontend/src/Context/AuthContext.jsx:286-341 | the new state and result are `AuthenticateOn` of the old state |
| AuthProvider.AuthSession.FinishAuthentication | frontend/src/Context/AuthContext.jsx:292-309 | the new state and result are `FinishAuthenticationOn` of the old state |
| AuthProvider.AuthSession.Login | frontend/src/Context/AuthContext.jsx:286-312 | the new state and result are `LoginOn` of the old state |
| AuthProvider.AuthSession.Register | frontend/src/Context/AuthContext.jsx:321-344 | the new state and result are `RegisterOn` of the old state |
| AuthProvider.AuthSession.Logout | frontend/src/Context/AuthContext.jsx:350-365 | the new state and result are `LogoutOn` of the old state |
| AuthProvider.AuthSession.ChangePassword | frontend/src/Context/AuthContext.jsx:375-394 | the new state and result are `ChangePasswordOn` of the old state |
| AuthProvider.AuthSession.OnResponseError | frontend/src/Context/AuthContext.jsx:170-188 | errors it does not take over are rejected unchanged, with the refresh state unchanged. During a refresh, a 401 only appends its unmarked request to the queue. Otherwise the request is marked `_retry` and a refresh starts |
| AuthProvider.AuthSession.ProcessQueue | frontend/src/Context/AuthContext.jsx:159-168 | the settlements are `Drain` of the old queue, and the queue is left empty |
| AuthProvider.AuthSession.SettleRefresh | frontend/src/Context/AuthContext.jsx:190-211 | the new state and outcomes are `SettleOn`. Success: queue resolved and marked original replayed. Failure result: queue rejected with "Token refresh failed", user null, original error rejected. Exception: queue and original rejected with it, user null. `isRefreshing` false on every path; queued replays are unmarked |
| AuthProvider.AuthSession.FailTogether | frontend/src/Context/AuthContext.jsx:176-188 | of N 401s arriving while no refresh is in flight, the first starts the refresh and the other N-1 join the queue, in order |
| AuthProvider.AuthSession.UnauthorizedBurst | frontend/src/Context/AuthContext.jsx:148-211 | N concurrent 401s start exactly one refresh. If it stalls, all N wait for good. Otherwise all are replayed when it succeeds (user from `/refresh`, token from `/csrf-token`), or all rejected and the user cleared when it fails |
| StudentResults.RequiredHeaderCount | frontend/src/Components/ncaaaDetailComponents/NcaaaFormTables/NcaaaStudentResults.jsx:49-66 | the 16 required headers are distinct |
| StudentResults.FirstMissingIndex | frontend/src/Components/ncaaaDetailComponents/NcaaaFormTables/NcaaaStudentResults.jsx:87-89 | every entry before the index is present, and the entry at it is missing |
| StudentResults.FirstMissing | frontend/src/Components/ncaaaDetailComponents/NcaaaFormTables/NcaaaStudentResults.jsx:87-94 | nothing is reported if and only if every required entry is present |
| StudentResults.ValidateCsvAccepts | frontend/src/Components/ncaaaDetailComponents/NcaaaFormTables/NcaaaStudentResults.jsx:80-95 | accepted if and only if: exactly 2 rows, the first row's keys equal the 16 required headers, and the `Field` values are "Number of Students" and "Percentage", one each |
| StudentResults.RowCountCheckedFirst | frontend/src/Components/ncaaaDetailComponents/NcaaaFormTables/NcaaaStudentResults.jsx:81 | a missing CSV or one without exactly 2 rows gets the row-count message, whatever else is wrong |
| StudentResults.MissingColumnIsFirst | frontend/src/Components/ncaaaDetailComponents/NcaaaFormTables/NcaaaStudentResults.jsx:85-89 | a missing-column message names the first required header, in list order, that the first row lacks |
| StudentResults.NumberColumns | frontend/src/Components/ncaaaDetailComponents/NcaaaFormTables/NcaaaStudentResults.jsx:102-116 | the value columns are exactly the listed field names |
| StudentResults.NumberColumnsAt | frontend/src/Components/ncaaaDetailComponents/NcaaaFormTables/NcaaaStudentResults.jsx:102-116 | each value column holds the number read from its own header |
| StudentResults.MapCsvRow | frontend/src/Components/ncaaaDetailComponents/NcaaaFormTables/NcaaaStudentResults.jsx:99-117 | id "students" if and only if `Field` is "Number of Students", else "percentage"; label is `Field`; each of the 15 values comes from its own header |
| StudentResults.MapRows | frontend/src/Components/ncaaaDetailComponents/NcaaaFormTables/NcaaaStudentResults.jsx:131 | one mapped row per CSV row, in order |
| StudentResults.BlankRow | frontend/src/Components/ncaaaDetailComponents/NcaaaFormTables/NcaaaStudentResults.jsx:9-27 | a table row with the given id and label and every value empty |
| StudentResults.InitialData | frontend/src/Components/ncaaaDetailComponents/NcaaaFormTables/NcaaaStudentResults.jsx:8-47 | two rows, `students` then `percentage`, with their labels and all 15 values empty |
| StudentResults.UpdateCell | frontend/src/Components/ncaaaDetailComponents/NcaaaFormTables/NcaaaStudentResults.jsx:74-76 | only the named column of rows with a matching id changes; other rows, other columns, row count and order are kept |
| StudentResults.HandleCsvUpload | frontend/src/Components/ncaaaDetailComponents/NcaaaFormTables/NcaaaStudentResults.jsx:121-138 | the data is replaced by the mapped rows only when validation passes; otherwise the data is unchanged and the error message shown |
| StudentResults.UploadKeepsTableShape | frontend/src/Components/ncaaaDetailComponents/NcaaaFormTables/NcaaaStudentResults.jsx:128-131 | after an accepted upload: two rows, the initial table's fields, and ids `students` and `percentage`, one each |
| Orcid.OrElse | backend/app/routes/about.py:44-45 | `x or default`: the value if truthy, the default otherwise |
| Orcid.GetOr | backend/app/routes/about.py:39-40 | `.get` succeeds exactly on objects: the member if present, else the default |
| Orcid.PathBasics | backend/app/routes/about.py:16-22 | no keys returns the input; from None every lookup is None |
| Orcid.PathConcat | backend/app/routes/about.py:16-22 | following `a + b` is following `a`, then `b` from where it stopped; an exception ends the walk |
| Orcid.PathFollowsObjects | backend/app/routes/about.py:16-22 | through nested objects holding every key, the result is the innermost value |
| Orcid.SafeGet | backend/app/routes/about.py:16-22 | the loop computes `Path` |
| Orcid.Members | backend/app/routes/about.py:39 | a list is iterated in order; empty strings and objects give nothing; None, booleans and numbers raise `TypeError`; a non-empty string or object raises `AttributeError` |
| Orcid.FirstDoiFindsFirst | backend/app/routes/about.py:48-55 | the DOI is the `external-id-value` of the first entry typed exactly "doi", and None when there is none |
| Orcid.WorkDefaults | backend/app/routes/about.py:44-45 | title is `title.title.value` or "No title"; type is the summary type when truthy, else "Unknown"; neither is ever empty |
| Orcid.NoExternalIdsNoDoi | backend/app/routes/about.py:48-55 | a summary without `external-ids` has DOI None |
| Orcid.GroupWithoutSummary | backend/app/routes/about.py:40-57 | a group lacking `work-summary` gives put code None, "No title", "Unknown", everything else None |
| Orcid.FirstSummaryOnly | backend/app/routes/about.py:40 | only the first work summary of a group is used |
| Orcid.OneWorkPerGroup | backend/app/routes/about.py:37-57 | exactly one work per group, in group order |
| Orcid.SuccessFlag | backend/app/routes/about.py:29-34 | success exactly for upstream status 200; a failure carries that status |
| Orcid.BuildWork | backend/app/routes/about.py:42-57 | the record built field by field, with exceptions in evaluation order, is `WorkFromSummary` |
| Orcid.GetWorks | backend/app/routes/about.py:24-62 | the loop appending one work per group computes `WorksOf` |
| Orcid.SingleWorkOf | backend/app/routes/about.py:64-72 | the upstream body for status 200, otherwise "Failed to fetch work" with the status |
| UserModels.RoleOf | server/apps/users/models.py:9-12 | a stored value is a role exactly when it is that role's value string |
| UserModels.ExactlyThreeRoles | server/apps/users/models.py:9-12 | exactly three roles, with distinct values and labels, each fitting `max_length` 10 |
| UserModels.GetOrCreate | server/apps/users/models.py:55 | the user has a row afterwards; an existing row is reused; no duplicates are introduced |
| UserModels.ProfileDispatch | server/apps/users/models.py:51-57 | an update changes nothing. A new STUDENT gets a student profile and no faculty profile, and FACULTY the reverse. ADMIN and any other role get none |
| UserModels.ProfileStepIdempotent | server/apps/users/models.py:34-38 | repeating the signal changes nothing, and no user has two profiles of one kind |
| UserModels.SaveNew | server/apps/users/models.py:17-19 | an insert fails with `IntegrityError` exactly on a taken email or a taken non-null `kau_id`, and then changes nothing. Otherwise it appends one row with the next key. The unique columns are preserved |
| UserModels.UniqueEmailAndKauId | server/apps/users/models.py:17-19 | re-using a saved email, or a saved non-null `kau_id`, is refused |
| UserModels.NullKauIdsNeverClash | server/apps/users/models.py:17 | any number of users may have a null `kau_id` |
| UserModels.UserDatabase.constructor | server/apps/users/models.py:32-47 | empty user and profile tables |
| UserModels.UserDatabase.CreateUserProfile | server/apps/users/models.py:51-57 | the profile tables become `ProfilesAfterSave`; profile rows stay unique and refer to existing users |
| UserModels.UserDatabase.Insert | server/apps/users/models.py:17-19 | the tables and result are those of `SaveNew`, including the post-save signal |
| UserManagers.BeforeFirstAt | server/apps/users/managers.py:16 | `split("@")[0]`: a prefix without '@', followed by '@' or the end |
| UserManagers.NormalizeStripsSeparators | server/apps/users/managers.py:13 | `strip()` removes all of Python's whitespace, the separators U+001C to U+001F included: U+001F followed by `a@B` normalises to `a@b` |
| UserManagers.NormalizeOnlyLowersDomain | server/apps/users/managers.py:13 | normalising keeps the stripped address up to its last '@' and only lowercases the letters after it |
| UserManagers.DefaultUsernameKeepsLocalPart | server/apps/users/managers.py:13-16 | the default username is the local part of the stripped address as typed |
| UserManagers.PrepareUser | server/apps/users/managers.py:5-19 | a missing or empty email fails first. Then no `kau_id` (None or 0) with a falsy `is_staff` fails. Otherwise: normalised email, the given `kau_id` and extra fields, and the given username or the part before the first '@' |
| UserManagers.CreatedUserCarriesArguments | server/apps/users/managers.py:19-22 | a created user is stored with the next key, the normalised email, exactly the given `kau_id` and extra fields; a refused call changes nothing |
| UserManagers.CreatedStudentHasProfile | server/apps/users/managers.py:19-21 | a student created through the manager has a student profile and no new faculty profile |
| UserManagers.CreateUser | server/apps/users/managers.py:5-22 | result and new tables are `CreateUserOn`: the checks, then `save()` |
| UserManagers.SuperuserDefaults | server/apps/users/managers.py:25-26 | `is_staff` and `is_superuser` become True only when absent; supplied values are kept |
| UserManagers.SuperuserKauIdCheck | server/apps/users/managers.py:24-30 | a default superuser passes the `kau_id` check without one; an explicit falsy `is_staff` fails it; a created superuser has no `kau_id` |
| UserManagers.EmailCheckedFirst | server/apps/users/managers.py:6-7 | without an email both creators fail with "The Email must be set" and change nothing |
| UserManagers.CreateSuperuser | server/apps/users/managers.py:24-30 | result and new tables are `CreateSuperuserOn`: the defaults, then `create_user` with no `kau_id` |
| UserSerializers.RenamePassword | server/apps/users/serializers.py:38-39 | afterwards `password_1` is absent. If it was present, `password1` holds its value and other keys are kept; otherwise the data is unchanged |
| UserSerializers.RenameIdempotent | server/apps/users/serializers.py:43-44 | renaming twice equals renaming once |
| UserSerializers.WithPassword2 | server/apps/users/serializers.py:45 | `password2` equals `password1`, or None when it is absent; other keys are kept |
| UserSerializers.ValidatedPasswordsMatch | server/apps/users/serializers.py:42-46 | after `validate`, the confirmation equals the password under either key spelling, and is None without a password |
| UserSerializers.CustomRegisterSerializer.constructor | server/apps/users/serializers.py:33-35 | the parent's fields without `password2`, whether or not it was there |
| UserSerializers.CustomRegisterSerializer.ToInternalValue | server/apps/users/serializers.py:37-40 | the payload is renamed in place and handed on |
| UserSerializers.CustomRegisterSerializer.Validate | server/apps/users/serializers.py:42-46 | the payload is renamed and gets `password2` in place |
| UserSerializers.Readable | server/apps/users/serializers.py:11-12 | a field is shown exactly when it is declared and not write-only |
| UserSerializers.PasswordIsWriteOnly | server/apps/users/serializers.py:11-12 | `password` is declared but never shown; every other declared field is shown |
| UserSerializers.GetProfileData | server/apps/users/serializers.py:14-20 | student data exactly for a STUDENT with a student profile; faculty data exactly for a FACULTY with a faculty profile; None otherwise, ADMIN included |
| UserSerializers.NewUserProfileData | server/apps/users/serializers.py:14-20 | a newly created student or faculty member is shown with the profile data of its role |
| UserSerializers.ProfileDataAsWrittenRaises | server/apps/users/serializers.py:16-18 | as written, every call raises `AttributeError`, including for a student who should get student data |
| UserPermissions.IsFaculty | server/apps/users/permissions.py:5-6 | granted exactly to an authenticated user whose role is FACULTY |
| UserPermissions.IsStudent | server/apps/users/permissions.py:9-10 | granted exactly to an authenticated user whose role is STUDENT |
| UserPermissions.PermissionsExclusive | server/apps/users/permissions.py:6-10 | an anonymous user is refused by both; nobody is granted both; ADMIN is granted neither |

## Behaviour as coded

In each of these cases the model follows the code, not the intended design:

- **The proactive 10-minute refresh ignores `isRefreshing`.** It calls `refreshAccessToken` directly, so it can overlap a refresh started by the 401 interceptor. `RefreshOn` applies in any state.
- **A request queued during a refresh is not marked `_retry`.** The mark is set after the `isRefreshing` check. If its replay fails with 401 again, a new refresh can start.
- **`changePassword` does not touch `loading`.** `login`, `register` and `logout` do.
- **The interceptor's `catch` branch is unreachable.** `refreshAccessToken` catches its own errors (`AwaitRefreshSettles`). `SettleRefresh` still models that branch for an exception.
- **A refused login can leave a user signed in.** A 401 from `/login` is taken over like any other. With a valid refresh cookie the refresh signs the cookie's user in, and the replayed login is refused (`LoginRefusedYetSignedIn`).
- **The session's own requests wait on themselves.** See the finding below: `initialize`, `logout` and the timer's refresh never finish when `/refresh` answers 401 (`AnonymousVisitorNeverInitialised`, `LogoutFromIdle`, `RefreshFromIdle`).

## Findings

| source | as written | input that shows it | evidently intended | confidence | as-written member | corrected member |
|---|---|---|---|---|---|---|
| server/apps/users/serializers.py:16-18 | `get_profile_data` compares the role with `CustomUser.Roles.STUDENT` / `CustomUser.Roles.FACULTY`, but `Roles` is a module-level class (server/apps/users/models.py:9), not an attribute of `CustomUser` | any user, e.g. a STUDENT with a student profile: raises `AttributeError` instead of returning the student profile data | compare with `Roles.STUDENT` / `Roles.FACULTY` | high; not executed | UserSerializers.ProfileDataAsWrittenRaises | UserSerializers.GetProfileData |
| frontend/src/Context/AuthContext.jsx:176-191 | the 401 interceptor also takes over the provider's own `/refresh` and `/csrf-token` requests. A fresh 401 on either while the interceptor's refresh is in flight is queued (:178-184) behind that same refresh, which awaits it (:191), so neither ever settles and `isRefreshing` stays true | a visitor without a session: `/me` and `/refresh` both answer 401, and `initialize` never sets `isInitialized` | the refresh's own requests pass a 401 on (or are sent already marked `_retry`), so a failed refresh reports failure | high; not executed | Auth.AnonymousVisitorNeverInitialised | Auth.AnonymousVisitorInitialisedWhenExempt |

## Left out

- **Network transport.** axios transport and `requests.get` to ORCID are left out. The server's answers are the parameter `net` (session) or plain inputs (ORCID, CSRF refetch).
- **Answers within one operation.** `net` answers a given request configuration the same way every time within one operation. A replay carries the `_retry` mark, so it can be answered differently from the first attempt.
- **Timers.** The 10-minute refresh interval and the 7-day expiry warning are real-time scheduling. The interval's effect is `RefreshAccessToken` called at any point.
- **The CSRF interceptor on the session's own requests.** `useApi`'s 403 interceptor runs before the 401 interceptor. For the provider's own requests the model passes a 403 on unchanged, because a CSRF refetch that itself fails with a CSRF 403 could recur without bound.
- **Logging and React plumbing.** Covers logging (`console.*`, the development logging interceptor), hooks, context providers, `alert`, and the rendering of the table and comment box.
- **Resumption after the drain.** A provider operation whose request was queued behind a refresh it did not start (`Pending`, not `stalled`) is cut off at the queue. The drain's `Replay` of that request is modelled; the answer to the replayed request, and so the rest of the operation (its state changes and its result), is not. The same holds for the `Replay` outcomes `SettleRefresh` and `UnauthorizedBurst` return.
- RefreshWhileRefreshing: when the refresh in flight is not the one awaiting this refresh (the timer's refresh during the interceptor's), its pending `/refresh` or token request is replayed by that refresh's drain, and the timer's refresh then goes on; the lemma stops at the queue and does not state how it ends.
- Api.CsrfStage: a `msg` that is present but not a string makes `.includes` throw, and an error without `config` makes the interceptor throw `TypeError`. The model's errors always carry a configuration and a string or absent `msg`.
- **Axios defaults.** Only the three CSRF aliases of the default header map are modelled; other default header entries are not.
- Auth.UserOf: a server `user` that is present but falsy (for example `0` or `""`) is not distinguished from a missing one; users are records.
- **Thrown values.** A thrown value that is falsy is not distinguished by the drain (`processQueue` tests `if (error)`); every modelled rejection is truthy.
- **CSV tokenising.** Papa Parse's tokenising and the "no file chosen" early return are left out. The rows Papa Parse produces, or its error message, are the input.
- StudentResults.MapCsvRow: JavaScript `Number()` is not evaluated. A value column records the header text it reads (`NumberOf`), or that the header is missing.
- **ORCID JSON.** Upstream ORCID JSON numbers are integers; floating point is not modelled.
- Orcid.Members: iterating a non-empty string or object yields strings, whose `.get` raises. The model raises at once instead of per element, which ends `get_works` with the same exception.
- **Django persistence and hashing.** `set_password` hashing, the model constructor's field checks and the database's own behaviour beyond the two unique columns are left out. Profiles are stored as rows holding their user's key, and cascade deletion is not modelled.
- UserManagers.NormalizeEmail: `lower()` is modelled on ASCII letters only; non-ASCII case folding is not. `strip()` covers Python's whitespace set.
- **Parent serializers.** The parent `RegisterSerializer` and DRF serializers (`super().__init__`, `super().to_internal_value`, `super().validate`, field validation, rendering) are left out. The registration payload is assumed to be a mutable dict (an immutable `QueryDict` would refuse the rename).
- UserSerializers.Readable: the output order of the readable fields is not stated, only which fields appear.
- **Role changes.** Role changes after creation, and `CustomUser.__str__`, are not modelled.

# Bug tracker: session lifecycle, task services and report, in Dafny

This project models the core of a small bug/task tracker: a Go backend that
logs users in through an OpenID Connect provider (Keycloak), keeps server-side
sessions in Redis, and serves tasks, folders, users and an Excel report; and
the pure helpers of its React frontend.

The centre of the model is the authentication session lifecycle:
- the CSRF `state` of a login, stored for five minutes;
- the callback that exchanges the authorization code, creates the user and
  stores a session bundle (access, refresh and ID tokens plus an absolute
  expiry);
- the guard (`AuthMiddleware`) that resolves a request's `session_id` cookie
  into an identity. On the way it refreshes an expired ID token, never beyond
  the bundle's absolute expiry;
- logout.

Redis is one keyspace (`Kv`) with per-key expiry and an explicit clock. The
provider is a record of oracle functions. Every provider call and store write
is recorded in an effect log, so "called exactly once" and "wrote nothing" can
be stated. The HTTP response writer is modelled closely enough to show what
reaches the wire when a handler keeps writing after an error.

Around that centre:
- the role gate;
- the task handler's details and delete;
- the query-string helpers;
- the user and folder constructors;
- the task, user, folder and report services (Postgres stores are oracle
  records);
- the spreadsheet layout of the report;
- the frontend:
  - status labels and colours;
  - the 401 interceptor;
  - the task form's diff;
  - the folder table's truncation and paging.

Two facts about the model are worth knowing:
- In the model, time is whole seconds and the session lifespan is positive.
  There every stored bundle's key expires exactly at its absolute expiry
  (`Lifecycle.ReplayKeepsBounded`). Because the guard reads the session and
  checks the ceiling with the same clock, no session is readable at or after
  its ceiling (`Lifecycle.NoSessionOutlivesCeiling`). The program itself can
  differ, as "## Left out" says: it truncates the absolute expiry to whole
  seconds while the key keeps the full lifespan.
- The callback never deletes the CSRF state. A state stays usable for its
  whole five minutes, also after a successful login
  (`Lifecycle.StateStaysUsable`).

## Model

| member | source | states |
|---|---|---|
| Kv.Get | backend/internal/store/redisstore/session.go:36-42 | a read fails exactly when GET fails, is nil exactly when the key is absent or expired, and otherwise returns the stored payload |
| Kv.Set | backend/internal/store/redisstore/session.go:63-65 | a write fails exactly when SET fails; otherwise it stores the payload with the TTL's expiry and leaves every other key as it was |
| Kv.Del | backend/internal/store/redisstore/session.go:29-31 | a delete removes the key and nothing else, or fails exactly when DEL fails |
| Kv.Exists | backend/internal/store/redisstore/session.go:20-25 | EXISTS answers 1 exactly for a live key |
| Errors.WrapKeepsSentinels | backend/internal/service/auth.go:72 | wrapping with `%w`, in front or behind, keeps exactly the sentinels `errors.Is` finds |
| Errors.WrapKeepsMessage | backend/internal/service/auth.go:72 | a wrapped error's message is the context, ": ", then the cause's message |
| GoStrings.TrimSpace | backend/internal/service/user.go:44 | the result is the input without its leading and trailing white space; it is empty exactly when the input is all white space |
| GoStrings.TrimSpaceIdempotent | backend/internal/service/user.go:44 | trimming twice equals trimming once |
| StateStore.Key | backend/internal/store/redisstore/state.go:44-46 | the key is "auth_state:" followed by the state |
| StateStore.SetState | backend/internal/store/redisstore/state.go:37-42 | the state is stored as itself for 300 seconds; the call fails exactly when the write fails |
| StateStore.GetState | backend/internal/store/redisstore/state.go:26-35 | a missing or expired state is ErrStateNotFound; transport errors never match that sentinel; otherwise the stored string comes back |
| StateStore.DeleteState | backend/internal/store/redisstore/state.go:19-24 | deleting removes the state's key, or fails exactly when DEL fails |
| StateStore.SetThenGet | backend/internal/store/redisstore/state.go:37-42 | within five minutes of SetState(s), GetState(s) returns s |
| StateStore.SetThenExpire | backend/internal/store/redisstore/state.go:38 | five minutes after SetState(s), GetState(s) is ErrStateNotFound |
| StateStore.DeleteThenGet | backend/internal/store/redisstore/state.go:19-35 | after DeleteState(s), GetState(s) is ErrStateNotFound |
| SessionStore.Key | backend/internal/store/redisstore/session.go:69-71 | the key is "session:" followed by the id |
| SessionStore.KeyInjective | backend/internal/store/redisstore/session.go:69-71 | different session ids never share a key |
| SessionStore.Stamp | backend/internal/store/redisstore/session.go:51-57 | an explicit TTL is used as given and the bundle is kept as it is; without one, the default TTL is used and the absolute expiry is stamped at now plus that TTL |
| SessionStore.SaveSession | backend/internal/store/redisstore/session.go:50-67 | the stamped bundle is written under the session's key with the chosen TTL; a failed write is never ErrSessionNotFound |
| SessionStore.GetSession | backend/internal/store/redisstore/session.go:35-48 | it returns ErrSessionNotFound exactly when the key is absent or expired; any other error never matches it; otherwise the stored bundle comes back |
| SessionStore.DeleteSession | backend/internal/store/redisstore/session.go:28-33 | the session's key is removed, or the call fails exactly when DEL fails |
| SessionStore.CheckSession | backend/internal/store/redisstore/session.go:19-26 | it reports true exactly for a live session |
| SessionStore.SaveThenGet | backend/internal/store/redisstore/session.go:50-67 | a saved bundle reads back, with its stamp, until its TTL lapses |
| SessionStore.DeleteThenGet | backend/internal/store/redisstore/session.go:28-48 | after a delete, a read is ErrSessionNotFound and a check is false |
| SessionStore.CheckAgreesWithGet | backend/internal/store/redisstore/session.go:19-48 | CheckSession is true exactly when GetSession does not report not-found |
| Keyspace.KeysDisjoint | backend/internal/store/redisstore/state.go:44-46 | no state key is a session key |
| Keyspace.SetStateKeepsNamespaces | backend/internal/store/redisstore/state.go:37-42 | writing a state keeps bundles under session keys only |
| Keyspace.SaveSessionKeepsNamespaces | backend/internal/store/redisstore/session.go:50-67 | saving a session keeps bundles under session keys only |
| Keyspace.DeletesKeepNamespaces | backend/internal/store/redisstore/session.go:28-33 | deletes keep bundles under session keys only |
| Keyspace.StateReadsSeeStrings | backend/internal/store/redisstore/state.go:26-35 | in a namespaced keyspace a state read gives a string, not-found or a transport error, never a bundle |
| Keyspace.SessionWritesInvisibleToStates | backend/internal/store/redisstore/session.go:63 | saving or deleting a session never changes what a state read returns |
| Keyspace.StateWritesInvisibleToSessions | backend/internal/store/redisstore/state.go:38 | setting or deleting a state never changes what a session read returns |
| Http.SetCookie | backend/internal/handler/auth.go:44-52 | a cookie is added to the header; whatever was already sent stays sent |
| Http.WriteHeader | backend/internal/handler/auth.go:30 | the first status is frozen with the header of that moment; later calls change nothing |
| Http.Write | backend/internal/handler/auth.go:31 | writing a body chunk sends the header first if it was not sent yet |
| Http.Error | backend/internal/handler/auth.go:41 | on a fresh writer the status and a plain-text type go out; the message plus a newline is appended to the body |
| Http.Redirect | backend/internal/handler/auth.go:54 | on a fresh writer the status and Location go out with the cookies set so far; once a status is sent, neither changes |
| Http.WriteJson | backend/internal/handler/auth.go:29-31 | a 200 JSON response with the one-field object as its body |
| Http.SentIsFinal | backend/internal/handler/auth.go:39-54 | after a status is sent, SetCookie, Redirect and Error change neither the status nor the header |
| Domain.NewUser | backend/internal/domain/user.go:15-27 | it fails with ErrValidation exactly when one of the four fields is empty; otherwise it builds the user from them |
| Domain.NewUserRoundTrip | backend/internal/domain/user.go:15-27 | rebuilding a user from its own fields gives it back exactly when it is valid |
| Domain.NewFolder | backend/internal/domain/folder.go:18-31 | it fails with a wrapped ErrValidation exactly when the name or the user id is empty; otherwise the folder is live, with the given id and time |
| Domain.Delete | backend/internal/domain/folder.go:33-36 | a soft delete: only the deletion time changes |
| Domain.DeleteTwice | backend/internal/domain/folder.go:33-36 | deleting again only moves the deletion time |
| AuthService.PrepareLogin | backend/internal/service/auth.go:121-129 | exactly one state write; the authorization URL for that state comes back when the write succeeds, and nothing changes when it fails |
| AuthService.PrepareLoginPersistsState | backend/internal/service/auth.go:121-129 | after a successful login preparation the state reads back for five minutes |
| AuthService.CheckState | backend/internal/service/auth.go:69-75 | the callback passes the check exactly when the stored state equals the given one; a missing state stays ErrStateNotFound |
| AuthService.Authorize | backend/internal/service/auth.go:77-100 | a failed exchange, a missing id_token, a failed verification or undecodable claims all fail; a user that `NewUser` rejects fails with its error; otherwise the login carries the exchanged token and the user built from the verified token's subject, e-mail and names |
| AuthService.HandleCallback | backend/internal/service/auth.go:68-119 | a bad state fails with nothing written and no call made; a failed exchange or a failed user save fails with nothing written; success needs the state, the exchange and the user save to pass, and once they have, it succeeds exactly when the session save does; on success the tokens are stored under the new id with the default TTL |
| AuthService.RefreshToken | backend/internal/service/auth.go:131-146 | it fails exactly when the provider does; an empty new refresh token is replaced by the old one |
| AuthService.RefreshKeepsARefreshToken | backend/internal/service/auth.go:141-143 | a refresh that starts from a refresh token always ends with one |
| AuthService.LogoutUrl | backend/internal/service/auth.go:53-65 | the redirect back to the app is always set; id_token_hint is set exactly when the session had a non-empty ID token; other parameters are kept |
| AuthService.PrepareLogout | backend/internal/service/auth.go:39-66 | a missing session still logs out; any other read error or a failed delete fails with nothing written; an unparsable logout base URL fails; when the read is tolerated and the delete passes, it succeeds exactly when the base URL parses; on success the session's key is gone |
| AuthService.LogoutOfUnknownSession | backend/internal/service/auth.go:40-47 | logging out of an unknown session succeeds, without an id_token_hint |
| AuthMiddleware.RedirectToLogin | backend/internal/appmw/auth.go:75-92 | a 302 to /auth/login that stores the requested path for 300 seconds and clears the session cookie |
| AuthMiddleware.Renewed | backend/internal/appmw/auth.go:111-113 | the three tokens are replaced and the absolute expiry is carried over |
| AuthMiddleware.HandleTokenRefresh | backend/internal/appmw/auth.go:94-133 | the refresh grant is always the first call; success is possible only strictly before the absolute expiry |
| AuthMiddleware.RefreshSaves | backend/internal/appmw/auth.go:118-132 | before the ceiling the renewed bundle is written with the remaining time as TTL; the refresh succeeds exactly when the new ID token then verifies, and a failed save leaves the keyspace as it was |
| AuthMiddleware.Inject | backend/internal/appmw/auth.go:58-68 | the request is forwarded exactly when the claims decode, with the subject, both names and the roles; otherwise a 500 |
| AuthMiddleware.Authenticate | backend/internal/appmw/auth.go:24-71 | only a request with a session cookie is ever forwarded; the set of failing store commands is never changed |
| AuthMiddleware.SyncUser | backend/internal/appmw/auth.go:135-165 | a user is written exactly when the claims decode, the user is valid and the store reports it missing or different; the written user comes from the token |
| AuthMiddleware.SyncUserSettles | backend/internal/appmw/auth.go:159-164 | once the store holds what a sync wrote, syncing the same token writes nothing |
| AuthMiddleware.NoSessionRedirects | backend/internal/appmw/auth.go:25-36 | a missing cookie or a missing session redirects to login, with nothing written and nothing called |
| AuthMiddleware.StoreFailureIs500 | backend/internal/appmw/auth.go:31-38 | any other store error is a bare 500 with no redirect and no cookie changes |
| AuthMiddleware.ValidTokenForwards | backend/internal/appmw/auth.go:41-70 | a stored token that verifies forwards its identity, with no refresh, no write and no sync |
| AuthMiddleware.InvalidTokenRedirects | backend/internal/appmw/auth.go:41-56 | a stored token that fails verification other than by expiry redirects to login, with no refresh, no write and no sync |
| AuthMiddleware.OnlyExpiredTokensRefresh | backend/internal/appmw/auth.go:41-56 | the refresh grant is called exactly when the stored token is expired, and then first |
| AuthMiddleware.FailedRefreshRedirects | backend/internal/appmw/auth.go:45-49 | a failed grant, or one without an id_token, redirects with nothing written |
| AuthMiddleware.CeilingDeletesSession | backend/internal/appmw/auth.go:115-121 | at or past the absolute expiry a successful grant still deletes the session, saves nothing and redirects |
| AuthMiddleware.RefreshSavesOnce | backend/internal/appmw/auth.go:118-132 | before the ceiling: exactly one save, under the same id, of the renewed bundle with TTL = absolute expiry minus now; then the new token is verified |
| AuthMiddleware.GuardKeepsCeiling | backend/internal/appmw/auth.go:94-133 | a guarded request changes at most its own session key, and what stays there keeps the absolute expiry |
| AuthMiddleware.RefreshKeepsCeiling | backend/internal/appmw/auth.go:111-125 | the refresh path changes only its own key, and leaves either nothing or a bundle with the same absolute expiry |
| AuthHandler.HandleLogin | backend/internal/handler/auth.go:22-32 | a 200 with `login_url` exactly when the state was stored, otherwise a 500 "Failed to prepare login" |
| AuthHandler.HandleCallback | backend/internal/handler/auth.go:34-55 | a successful callback answers 302 to the success page with the session cookie; a failed one answers 401 |
| AuthHandler.FailedCallbackIsJust401 | backend/internal/handler/auth.go:39-54 | despite the missing return, a failed callback puts neither a cookie nor a Location on the wire |
| AuthHandler.CallbackCookieMatchesSession | backend/internal/handler/auth.go:44-52 | the cookie carries the new session id, HttpOnly, Secure and Lax, and lives exactly as long as the stored session |
| AuthHandler.HandleLogout | backend/internal/handler/auth.go:57-80 | no cookie is an empty 200; the lookup-error branch, which net/http never takes, is 400; a failure is 500; on success the cookie is cleared and `logout_url` is returned |
| AuthHandler.LogoutEndsSession | backend/internal/handler/auth.go:57-80 | after a successful logout the same cookie is redirected to login by the guard |
| Lifecycle.ReadableBeforeCeiling | backend/internal/appmw/auth.go:115-121 | under the invariant, a bundle is readable only strictly before its absolute expiry |
| Lifecycle.SetKeepsBounded | backend/internal/store/redisstore/session.go:63 | a write of a string, or of a bundle expiring at its absolute expiry, keeps the invariant |
| Lifecycle.DelKeepsBounded | backend/internal/store/redisstore/session.go:29 | deletes keep the invariant |
| Lifecycle.LoginKeepsBounded | backend/internal/service/auth.go:121-129 | a login keeps the invariant |
| Lifecycle.CallbackKeepsBounded | backend/internal/service/auth.go:106-116 | a callback stores a bundle whose key expires at its absolute expiry |
| Lifecycle.GuardKeepsBounded | backend/internal/appmw/auth.go:115-125 | a guarded request keeps the invariant, because the refresh TTL is the time left to the absolute expiry |
| Lifecycle.RefreshKeepsBounded | backend/internal/appmw/auth.go:115-125 | the refresh path, deleting or saving, keeps every stored bundle expiring at its absolute expiry |
| Lifecycle.LogoutKeepsBounded | backend/internal/handler/auth.go:57-80 | a logout keeps the invariant |
| Lifecycle.ApplyKeepsBounded | backend/internal/appmw/auth.go:115-125 | every kind of request keeps the invariant |
| Lifecycle.ReplayKeepsBounded | backend/internal/appmw/auth.go:115-125 | any sequence of requests, at any times, keeps the invariant |
| Lifecycle.NoSessionOutlivesCeiling | backend/internal/appmw/auth.go:115-121 | from an empty keyspace, no session is readable at or after its absolute expiry, whatever requests are served |
| Lifecycle.StateStaysUsable | backend/internal/service/auth.go:68-119 | after a successful callback the same state still passes the check |
| Lifecycle.ExpiredStateRejected | backend/internal/service/auth.go:69-75 | a state used after five minutes fails as not-found, before any exchange or write |
| Lifecycle.UnissuedStateRejected | backend/internal/service/auth.go:69-75 | a state never issued fails as not-found and creates no session |
| Lifecycle.LoginScenario | backend/internal/service/auth.go:106-118 | login then callback: a new session holds the exchanged tokens with the absolute expiry stamped at callback time plus the lifespan |
| Lifecycle.RefreshScenario | backend/internal/appmw/auth.go:111-132 | an expired token ten seconds before the ceiling: one refresh, one save with TTL 10, and the new identity forwarded |
| Roles.IsAdmin | backend/internal/handler/task.go:285-292 | true exactly when some role equals "admin" up to case folding |
| Roles.AdminOnly | backend/internal/appmw/role.go:8-30 | admits exactly when roles are present and one of them folds to "admin"; otherwise a 403 "Forbidden" |
| Roles.AdminSpellings | backend/internal/appmw/role.go:26 | "ADMIN" and "Admin" are admins; "administrator" and no roles are not |
| Query.Get | backend/internal/handler/helpers.go:12 | the first value of the key, or "" |
| Query.Atoi | backend/internal/handler/helpers.go:17 | a parse succeeds only on non-empty input and only within the 64-bit range |
| Query.DigitsRoundTrip | backend/internal/handler/helpers.go:17 | the value of a number's decimal digits is the number |
| Query.AtoiItoa | backend/internal/handler/helpers.go:17 | parsing the rendering of any 64-bit integer gives it back |
| Query.AtoiRejectsNonDigits | backend/internal/handler/helpers.go:17-20 | a value with a non-digit after the sign does not parse |
| Query.GetQueryInt | backend/internal/handler/helpers.go:11-22 | the default when the parameter is missing, empty or not an integer; otherwise the parsed value |
| Query.QueryIntRoundTrip | backend/internal/handler/helpers.go:11-22 | any 64-bit number a client sends is read back unchanged, negatives included |
| Query.GetQueryString | backend/internal/handler/helpers.go:24-30 | the default exactly when the value is empty |
| TaskHandler.ShortViewHidesIds | backend/internal/handler/task.go:265-274 | the short view does not depend on the ids or the creation time |
| TaskHandler.Present | backend/internal/handler/task.go:237-282 | "full" in any case is for admins only, otherwise 403; "short" gives the user view; anything else is 404 "unknown view" |
| TaskHandler.Details | backend/internal/handler/task.go:203-283 | a missing id is 400; no roles is 403; no user id is 500; a found task is answered with the requested view of its details; a 200 needs a found task |
| TaskHandler.NoRolesNoLookup | backend/internal/handler/task.go:212-216 | without roles the answer does not depend on the stores |
| TaskHandler.MissingTaskIs404 | backend/internal/handler/task.go:223-228 | a task the store does not find is a 404 |
| TaskHandler.FullViewNeedsAdmin | backend/internal/handler/task.go:241-245 | a non-admin asking for "FULL" is refused |
| TaskHandler.Delete | backend/internal/handler/task.go:103-117 | a missing id is 400; not-found is 404 naming the id; other failures are 500; success is an empty 200 |
| TaskService.CheckUser | backend/internal/service/task.go:283-292 | it passes exactly when the user exists; a missing user is ErrUserNotFound; a store error is wrapped with `%w` and keeps ErrUserNotFound visible exactly when its cause did |
| TaskService.CheckFolder | backend/internal/service/task.go:294-303 | it passes exactly when the folder exists; a missing folder is ErrFolderNotFound; a store error is wrapped with `%w` and keeps ErrFolderNotFound visible exactly when its cause did |
| TaskService.FindForUpdate | backend/internal/service/task.go:141-147 | the found task, or an error that is not-found exactly when the store's was |
| TaskService.UserPatch | backend/internal/service/task.go:152-159 | a user's patch carries status, result and comment as given, the check date set to now, and nothing else |
| TaskService.UpdateAndSave | backend/internal/service/task.go:161-169 | a refused patch is returned and nothing is saved; otherwise the patched task is saved, and the call passes exactly when the save does |
| TaskService.UpdateByUser | backend/internal/service/task.go:140-170 | a missing task is not-found; a caller who is not the assignee is ErrNotAssignee with nothing saved; for the assignee the user patch is applied and saved, and the call passes exactly when both succeed |
| TaskService.UpdateByAdmin | backend/internal/service/task.go:172-215 | a missing task fails; a new assignee or folder that does not exist fails with its not-found error before any save; once both exist the full patch is applied and saved |
| TaskService.Save | backend/internal/service/task.go:254-281 | a missing user or folder fails before any save; once both exist the task `NewTask` builds is saved, or its error returned; a failed save drops the error chain; the call passes exactly when the new task is saved |
| TaskService.DeleteById | backend/internal/service/task.go:217-225 | not-found passes through unwrapped; any other failure becomes "db error: …" |
| TaskService.DetailsOf | backend/internal/service/task.go:124-137 | every field of the task is copied |
| TaskService.GetDetails | backend/internal/service/task.go:115-138 | the details of the found task, or an error that is not-found exactly when the store's was |
| TaskService.DetailsIgnoreCaller | backend/internal/service/task.go:115 | the caller's id makes no difference: there is no assignee check |
| TaskService.MapPreviews | backend/internal/service/task.go:305-318 | one preview per task, in order |
| TaskService.SearchWith | backend/internal/service/task.go:227-252 | a failed existence check is returned as is; a failed query is wrapped and keeps its sentinels; otherwise the call succeeds with one preview per task in order and the pagination |
| TaskService.SearchByFolderId | backend/internal/service/task.go:227-252 | a missing folder is ErrFolderNotFound and a failed check is returned as is; a failed query is wrapped; otherwise the folder's page is previewed in order with its pagination |
| TaskService.SearchByUserId | backend/internal/service/task.go:88-113 | a missing user is ErrUserNotFound and a failed check is returned as is; a failed query is wrapped; otherwise the user's page is previewed in order with its pagination |
| UserService.StatusClassesPartition | backend/internal/service/user.go:28-38 | the in-progress and completed status lists are disjoint and cover all four statuses |
| UserService.LastFor | backend/internal/service/user.go:68-71 | the count result kept for a user carries that user's id, and there is none only when no result does |
| UserService.PreviewOf | backend/internal/service/user.go:74-90 | "First Last" with the user's counts, or zero counts when there are none |
| UserService.CountsByUser | backend/internal/service/user.go:68-71 | the map holds exactly the ids seen, each with its last result |
| UserService.IdsOf | backend/internal/service/user.go:58-61 | the page's ids, in order |
| UserService.Merge | backend/internal/service/user.go:73-91 | one preview per user, in page order, counts taken from the map |
| UserService.Listing | backend/internal/service/user.go:58-98 | the count query is asked about exactly the page's ids; its failure is the only error; otherwise the page's previews in order, under the given pagination |
| UserService.Search | backend/internal/service/user.go:40-99 | the name is trimmed; a failed search fails; an empty page asks for no counts; a non-empty page succeeds exactly when the count query does, with one preview per user in page order |
| FolderService.LookupError | backend/internal/service/folder.go:26-31 | a lookup error is not-found exactly when the store's was |
| FolderService.Details | backend/internal/service/folder.go:24-38 | name, creation time and the creator as "Last First" |
| FolderService.Delete | backend/internal/service/folder.go:40-56 | a soft delete: the found folder is saved back marked deleted at now, and nothing else changes |
| FolderService.Save | backend/internal/service/folder.go:58-77 | an empty name or user id is a validation error with nothing saved; otherwise the new folder is handed to the store, a failed save keeps only the message, and a passing save reports the folder with zero tasks |
| FolderService.Search | backend/internal/service/folder.go:79-99 | fails exactly when the store does, with the store's text plus ": error while searching" and no sentinel left visible to `errors.Is` (the cause is formatted with `%s`); otherwise one entry per result, in order, with its task count |
| ReportService.RowOf | backend/internal/service/report.go:62-75 | the assignee is "Last First"; a missing check date becomes the zero time; other fields are copied |
| ReportService.Rows | backend/internal/service/report.go:59-76 | one row per task, in order |
| ReportService.FileName | backend/internal/service/report.go:84 | the folder's name, "_", the stamp, ".xlsx" |
| ReportService.Create | backend/internal/service/report.go:45-87 | a missing folder keeps not-found; a failed task query fails; otherwise the generator gets the rows and the file is named after the folder |
| Excel.StatusDisplay | backend/internal/excel/generator.go:221-226 | the four statuses in Russian, anything else unchanged |
| Excel.ResultDisplay | backend/internal/excel/generator.go:241-249 | the three results in Russian, "" as "-", anything else unchanged; never empty |
| Excel.ResultStyle | backend/internal/excel/generator.go:228-239 | each known result has its own style; everything else, "" included, gets the "other" style |
| Excel.WhiteOnlyForSuccessAndFailure | backend/internal/excel/generator.go:112-116 | the result cell's font is white exactly for success and failure |
| Excel.RowValues | backend/internal/excel/generator.go:181-191 | nine values per task |
| Excel.TaskRow | backend/internal/excel/generator.go:180-210 | nine cells in columns 1-9 of the row holding soft name, request id, description, assignee, the two dates, translated status and result, and comment; the date columns use the date style and are blank for the zero time; the result column uses the result style |
| Excel.HeaderRow | backend/internal/excel/generator.go:144-170 | the nine headers across row 1 in the header style, as many as the column widths |
| Excel.FillData | backend/internal/excel/generator.go:172-178 | task i fills row i + 2, so no data cell lands in the header row |
| Excel.Generate | backend/internal/excel/generator.go:29-51 | the sheet's name and widths, the header row first, then task i's nine cells at row i + 2, in task order |
| StatusUtils.ChipColor | frontend/src/utils/statusUtils.js:1-18 | the four statuses get warning, success, info and error; the key "default" gets grey; anything else gets "default" |
| StatusUtils.StatusName | frontend/src/utils/statusUtils.js:9-19 | the four statuses get their names; any other own-key status is shown as it is |
| StatusUtils.NameAgreesWithReport | frontend/src/utils/statusUtils.js:9-14 | the chip label is the report's word with a capital letter, and unknown statuses read the same in both |
| StatusUtils.ChipColorsDistinguishStatuses | frontend/src/utils/statusUtils.js:1-7 | each known status has its own chip colour, never a fallback |
| ApiClient.OnResponse | frontend/src/api/client.js:8-10 | a success passes through, and the browser is untouched |
| ApiClient.OnError | frontend/src/api/client.js:11-28 | every error is rejected; the browser navigates exactly on a 401 away from '/' and '/login…', after stashing the path as redirectAfterLogin |
| ApiClient.UnauthorizedLeavesForLogin | frontend/src/api/client.js:19-25 | a 401 on a private page goes to /login and remembers the page |
| ApiClient.RedirectSettles | frontend/src/api/client.js:20-21 | once on /login, a further 401 does not navigate again |
| ApiClient.OnlyUnauthorizedRedirects | frontend/src/api/client.js:12-27 | network errors and non-401 statuses are rejected without touching the browser |
| TaskDetailsPage.Normalise | frontend/src/pages/TaskDetailsPage.jsx:51-53 | the two date fields starting with "0001-01-01" become null; every other field is kept |
| TaskDetailsPage.NormaliseIdempotent | frontend/src/pages/TaskDetailsPage.jsx:51-53 | normalising twice equals normalising once |
| TaskDetailsPage.Diff | frontend/src/pages/TaskDetailsPage.jsx:96-102 | the diff holds exactly the form fields whose JSON text differs from the loaded task's, with the form's values |
| TaskDetailsPage.UntouchedFormHasNoDiff | frontend/src/pages/TaskDetailsPage.jsx:96-102 | an untouched form has an empty diff |
| TaskDetailsPage.DiffIsTheChange | frontend/src/pages/TaskDetailsPage.jsx:96-102 | with a faithful stringify the diff is exactly the changed or new fields, and laying it over the loaded task gives the form back |
| TaskDetailsPage.Submit | frontend/src/pages/TaskDetailsPage.jsx:104-120 | nothing is sent exactly when the diff is empty; an admin sends the diff; a user sends only the changed status, result and comment |
| TaskDetailsPage.UserOtherFieldsSendEmptyUpdate | frontend/src/pages/TaskDetailsPage.jsx:113-119 | a user who changed only other fields still sends a request, an empty one |
| TaskDetailsPage.Load | frontend/src/pages/TaskDetailsPage.jsx:51-56 | both copies are the normalised task |
| TaskDetailsPage.LoadedPageSendsNothing | frontend/src/pages/TaskDetailsPage.jsx:95-107 | submitting a page just loaded sends nothing |
| TaskDetailsPage.AfterUpdate | frontend/src/pages/TaskDetailsPage.jsx:123-125 | after a successful update both copies are the refetched task, as fetched; on failure the page is kept |
| TaskDetailsPage.RefetchKeepsZeroDate | frontend/src/pages/TaskDetailsPage.jsx:123-125 | a zero check date that loading clears is shown again after an update |
| TaskDetailsPage.AfterUpdateNormalised | frontend/src/pages/TaskDetailsPage.jsx:51-56 | the corrected step: after an update the page is as after a fresh load of the refetched task |
| TaskDetailsPage.UpdateSettlesLikeLoad | frontend/src/pages/TaskDetailsPage.jsx:123-125 | with the corrected step, the page after an update equals a fresh load and sends nothing when submitted again |
| FolderTasksPage.Truncate | frontend/src/pages/FolderTasksPage.jsx:22-27 | the text is unchanged when it fits; otherwise its first maxLength code points and "..."; never longer than maxLength + 3 |
| FolderTasksPage.TruncateIdempotent | frontend/src/pages/FolderTasksPage.jsx:22-27 | truncating twice to the same length equals truncating once |
| FolderTasksPage.RequestOf | frontend/src/pages/FolderTasksPage.jsx:50-59 | the request asks for the 1-based page, with the table's size, filter and search |
| FolderTasksPage.Step | frontend/src/pages/FolderTasksPage.jsx:92-101 | a status or page-size change resets the page to 0; a page change sets it; a search change keeps it |
| FolderTasksPage.FilterOrSizeRestartsAtFirstPage | frontend/src/pages/FolderTasksPage.jsx:93-101 | after a status or page-size change the next request asks for page 1 and nothing else changes |
| FolderTasksPage.SearchKeepsPage | frontend/src/pages/FolderTasksPage.jsx:92 | a new search text keeps the current page |

## Left out

- Redis, Postgres/GORM and JSON encoding are not modelled byte for byte. Redis is a map with expiry and a set of failing commands, and the Postgres stores are oracle functions. A stored bundle is a structured value: marshalling it cannot fail, so that branch of `SaveSession` is left out, and the unmarshal failure of `GetSession` is a plain string found under a session key.
- The OIDC and OAuth2 libraries (code exchange, `TokenSource`, signature checks, `Extra("id_token")`) are a provider record of oracle functions. uuid generation is a fresh-id parameter.
- Time is an explicit `now` in whole seconds. `time.Until` and the TTL are modelled to the second, so sub-second precision is left out.
- The guard uses one clock per request: the session read and the ceiling check share `now`. Under the stored-session invariant the ceiling branch then cannot fire in the model. In the program it can, for two reasons the model leaves out:
  - time passes between the two calls;
  - `SaveSession` truncates `AbsoluteExpiry` to whole seconds with `.Unix()` (store/redisstore/session.go:55) but gives the key the full `defaultTTL` (session.go:56,63), so the key can outlive its ceiling by up to a second.

  `AuthMiddleware.CeilingDeletesSession` states that branch for a bundle read at `now`.
- `KEYCLOAK_SSO_MAX_LIFESPAN_SECONDS` is parsed as any integer (config/config.go:40). The session invariant is proved only for a positive lifespan (`deps.sessions.defaultTtl > 0`); with zero or a negative value go-redis stores the key without expiry.
- `syncUser` runs in a goroutine, and two concurrent refreshes of one session race. Requests are modelled one at a time, and a sync as the user it would write (`AuthMiddleware.SyncUser`). Its log lines are left out.
- `cmd/main.go` is not modelled: it calls `AuthMiddleware` and `NewAuthService` with signatures the current code does not have, and it has no logout route. The handler's cookie lifetime is taken to be the store's default TTL, because that file wires both from the same value.
- The older interfaces in `store/store.go` are not modelled.
- `ListByFolder` in the task handler is left out: it calls `SearchByFolder` and `SearchTasksParams`, which do not exist in the task service.
- The task handler's `Create`, `UpdateByAdmin` and `UpdateByUser` are left out. Each decodes JSON, calls the service (which is modelled) and maps its error to a status with `errors.Is`, and that error-to-status mapping is not modelled. `Create` answers 404 for a missing folder or user, 400 for a validation error, 500 for anything else and 201 on success. `UpdateByAdmin` answers 400 for a validation error, 404 for a missing folder, user or task and 500 for anything else. `UpdateByUser` answers 400 for a validation error and also 400, not 403, for `ErrNotAssignee`; anything else, a missing task included, is a 500.
- `domain.Task.Update`, `domain.NewTask` and `store.CalculatePaginationResult` are not part of this model; they are oracle functions of the stores record.
- `store.ErrFolderNotFound` is used by the services but is not declared in store/errors.go; it is modelled as one more sentinel.
- Case folding (`strings.EqualFold`) is exact when one side is an ASCII literal, which is how the code uses it. Folding of non-ASCII letters beyond the two special Kelvin and long-s cases is left out.
- The model's `GetState` has one branch the program does not: it reports a failure when a state key holds a session bundle. `Keyspace.StateReadsSeeStrings` proves that branch unreachable, because the two stores use disjoint key prefixes.
- An empty `session_id` cookie is looked up in the store like any other value (appmw/auth.go:25-31).
- The logout handler's 400 branch (handler/auth.go:63-65) is dead code: net/http's `Request.Cookie` fails only with `http.ErrNoCookie`. The model keeps the branch as `CookieError` so that the handler's code is mirrored, but no real request reaches it.
- excelize styles, fonts, borders, row heights, float column widths and file encoding are left out. Style creation and `Write` failures are left out too; they are I/O of the library.
- Timestamp formatting (the report file name's stamp, dayjs) is a parameter.
- In the frontend, `JSON.stringify` is a parameter and the page's state is a pair of maps. React rendering, snackbars, debounce and the axios wrappers are left out, and so is `parseInt` of the page size: a change of page size carries the parsed number.
- StatusUtils.ChipColor: only the mapping's own keys are modelled. A status such as "toString", which names an inherited property of a JavaScript object, is not.
- StatusUtils.StatusName: the same holds here. For "toString" or "constructor", `statusNameMapping[status] || status` yields the inherited function, not the status; the model returns the status.
- FolderTasksPage.Truncate: lengths and cut points are counted in Unicode code points, where JavaScript's `length` and `substring` count UTF-16 code units. Text outside the Basic Multilingual Plane is therefore cut at a different place, and the source may split a surrogate pair.
- The folder list's search text is used as typed, without debounce.

## Findings

| source | as written | input that shows it | evidently intended | confidence | as-written member | corrected member |
|---|---|---|---|---|---|---|
| frontend/src/pages/TaskDetailsPage.jsx:123-125 | after a successful update the refetched task is stored without the zero-date normalisation applied on load | a task whose check date is Go's zero time, `"0001-01-01T00:00:00Z"`: after any update the page shows the date 01.01.0001 instead of "Не указана" | the refetched task is normalised as on load | medium, not executed | TaskDetailsPage.RefetchKeepsZeroDate | TaskDetailsPage.UpdateSettlesLikeLoad |

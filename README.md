# Drift Desk, modelled in Dafny

Drift Desk is a small issue tracker. Its tickets are called *drifts*. A FastAPI and SQLAlchemy
backend keeps users, drifts, comments, audit events and notifications. A React client lists and
edits them. This project models the rule-following core of both tiers and proves its contracts.

- **Tables.** The database is a `Models.Database` object with one sequence per table, kept in
  insertion order, and one id counter per table. Read-only endpoints are functions over those
  sequences. Endpoints that write are methods that append to, update or remove from them.
- **Abstract security.** Password hashing, JWT issue and verification, and Basic header decoding
  are function values in a `Dependencies.Security` record. Nothing about them is assumed beyond
  what each lemma requires.
- **Backend outcomes.** Every endpoint returns a `Result`: the response body or the `HttpError` it
  raises. FastAPI's query-parameter bounds (422) are checked before the body, as FastAPI does.
- **Client values.** Client values are JavaScript values (`Common.JsValue`), with JavaScript
  truthiness, `||` and `?.` written out.
- **Awaited calls.** Every awaited API call is a parameter of the method that awaits it: the value
  it resolved with, or the normalised error it threw (`ApiClient.Settled`). A component's state
  cells are the fields of a class, and its callbacks are methods on that class.
- **Pure and imperative parts.** Pure parts are functions with lemmas: the event derivation, the
  validators, the guards, the badge and the theme choice. The parts that build a value step by
  step are methods with loops and invariants. Those are the update loop of `update_drift`, the
  event loop of `log_drift_update` and the query parameters of the drift list.

One module per source file: `Common` holds the shared vocabulary, `Models` the records and the
`Database` class, and `NotificationService`, `EventService`, `NotificationsApi`, `CommentsApi`,
`DriftsApi`, `UsersApi`, `AuthApi` and `Dependencies` the backend. `ApiClient`, `UseNotifications`,
`Forms` (what the three forms share), `LoginForm`, `DriftForm`, `UserList`, `DriftList`,
`AppRoutes`, `NotificationBell` and `UseTheme` model the client.

## Model

| member | source | states |
|---|---|---|
| Models.UserByUsername | backend/app/api/auth.py:68 | `.first()` by user name: a found row is in the table with that name; none exactly when no row has it |
| Models.UserById | backend/app/api/drifts.py:24 | `.first()` by id: a found row is in the table with that id; none exactly when no row has it |
| Models.Database.constructor | backend/app/main.py:11 | an empty database: every table empty and every id counter at 1 |
| Common.Trim | frontend/src/components/Drifts/DriftForm.jsx:69-70 | JavaScript `trim()`: the result is the input with white space removed at both ends, a contiguous infix whose ends are not white space, and it is empty exactly when the input is blank |
| Common.Strip | backend/app/api/comments.py:32-42 | Python `strip()` with Python's own white space: the input with white space removed at both ends, a contiguous infix whose ends are not white space, empty exactly when the input is all white space |
| Common.ReplaceAll | backend/app/services/event.py:121 | `str.replace`: same length, every occurrence of the character replaced and every other character kept |
| Common.TitleCase | backend/app/services/event.py:121 | `str.title` over ASCII letters: same length; a letter after a letter is lower-cased, any other letter upper-cased, non-letters kept |
| Common.TitleTwoWords | backend/app/services/event.py:118-124 | two lower-case words joined by a space come out as two capitalised words |
| Common.Page | backend/app/api/comments.py:75-79 | `OFFSET/LIMIT`: at most `limit` elements, exactly `min(limit, n - offset)` of them, taken in order from `offset` |
| Common.NewestFirst | backend/app/services/event.py:134-139 | `ORDER BY created_at DESC OFFSET LIMIT`: the same count as `Page`, element `k` being the `(offset + k)`-th newest |
| Common.Filter | backend/app/api/notifications.py:26-30 | a `WHERE` clause: exactly the elements satisfying the condition, never more than the table holds |
| Common.NatToString | backend/app/services/event.py:81 | `str()` of a non-negative integer: decimal digits with no leading zero that denote the number |
| Common.FilterPartition | backend/app/api/notifications.py:33-39 | two complementary conditions split a table: their counts add up to its size |
| Common.FindFirst | backend/app/api/comments.py:103 | `.first()`: the first index satisfying the condition, and none exactly when no row does |
| Common.RemoveAt | backend/app/api/comments.py:137-138 | `db.delete` of one row: one row fewer, the rows before it in place and those after moved down by one |
| NotificationService.CreateNotification | backend/app/services/notification.py:9-27 | exactly one row appended, unread with no `read_at`, carrying the given user, drift, title and message and the next id |
| NotificationService.StatusChangeDrafts | backend/app/services/notification.py:44-78 | nothing unless the new status is resolved or closed; then the assignee iff the assignee id is truthy, the creator iff not the assignee, assignee first, at most two with distinct users |
| NotificationService.CreateStatusChangeNotification | backend/app/services/notification.py:44-78 | appends exactly the drafts of `StatusChangeDrafts`, each unread |
| NotificationService.CommentDraft | backend/app/services/notification.py:80-109 | an assignee who is not the author is the only one notified; otherwise the creator iff neither author nor assignee; never the author |
| NotificationService.CreateCommentNotification | backend/app/services/notification.py:80-109 | appends an unread row exactly when `CommentDraft` names a recipient, and nothing otherwise |
| NotificationService.MarkNotificationRead | backend/app/services/notification.py:111-128 | true iff a row with that id belongs to that user, and then only that row becomes read; false leaves the table unchanged |
| NotificationService.MarkAllFor | backend/app/services/notification.py:132-137 | the bulk update keeps the table's length |
| NotificationService.MarkAllForEffect | backend/app/services/notification.py:132-137 | the bulk update marks exactly the user's unread rows read, leaves every other row as it was, and leaves the user no unread row |
| NotificationService.MarkAllNotificationsRead | backend/app/services/notification.py:130-139 | returns how many of the user's rows were unread and applies the bulk update |
| NotificationService.GetUnreadNotificationCount | backend/app/services/notification.py:141-147 | the number of that user's unread rows, never more than the table holds |
| NotificationService.CleanupOldNotifications | backend/app/services/notification.py:149-159 | deletes exactly the read rows whose `read_at` is before the cutoff, keeps the rest in order, and returns how many went |
| EventService.DraftsOfEvents | backend/app/services/event.py:20-27 | one draft per event, in order |
| EventService.EncodeOptional | backend/app/services/event.py:25-26 | a value is encoded exactly when it is not `None`, and the encoding keeps the payload |
| EventService.CreateEvent | backend/app/services/event.py:10-30 | appends exactly one event with the given fields, both values encoded only when given, and the next id |
| EventService.FormatText | backend/app/services/event.py:121-123 | no underscore is left; a non-letter is kept, or becomes a space if it was `_`; a letter is upper-cased at the start of a word and lower-cased inside one |
| EventService.FormatTextChars | backend/app/services/event.py:121-123 | the characterwise statement of `replace('_', ' ').title()` that `FormatText` promises |
| EventService.FormatInProgress | backend/app/services/event.py:118-124 | IN_PROGRESS is shown as "In Progress" |
| EventService.FormatStatus | backend/app/services/event.py:118-124 | a status, priority or string is its plain value with underscores as spaces and title-cased, as `FormatText` states per character; `None` and integers as `str()` |
| EventService.FormatOpen | backend/app/services/event.py:118-124 | OPEN is shown as "Open" |
| EventService.CommentExcerpt | backend/app/services/event.py:113 | the first 100 characters, followed by "..." exactly when the content is longer, so never more than 103 characters |
| EventService.LogDriftCreation | backend/app/services/event.py:33-47 | one CREATED event by the creator, described by the title, with no old value and the title, description, priority value and assignee as new value |
| EventService.FieldEventDraft | backend/app/services/event.py:58-103 | STATUS_CHANGED iff a status changed, described with both formatted statuses; UNASSIGNED iff the assignee changed to `None` or 0, described "Drift unassigned"; ASSIGNED iff it changed to anything else, described with the new id; UPDATED otherwise, described with field and both values; the payloads hold the field with the raw ids for assignments and the plain values otherwise |
| EventService.UpdateEventsCount | backend/app/services/event.py:58-60 | exactly one event per field present in both dictionaries, none for a field missing from the old values |
| EventService.LogFieldChange | backend/app/services/event.py:62-103 | appends exactly the event `FieldEventDraft` describes |
| EventService.LogDriftUpdate | backend/app/services/event.py:50-103 | leaves the earlier events in place and appends exactly the events of `UpdateEvents`, in the order of the new values |
| EventService.LogCommentAdded | backend/app/services/event.py:106-115 | one COMMENT_ADDED event whose description carries the excerpt and whose new value is the whole content |
| EventService.GetDriftEvents | backend/app/services/event.py:127-139 | only that drift's events, all from the table, newest first, skipping `offset` and at most `limit`; without arguments the 50 newest, element by element |
| NotificationsApi.ListNotifications | backend/app/api/notifications.py:17-56 | 422 unless `1 <= limit <= 100` and `offset >= 0`; otherwise only the caller's rows (only unread ones with `unread_only`), newest first and paginated, `total` counting the filtered rows before paging and `unread_count` all the caller's unread rows; without parameters all the caller's rows count and the page is the 20 newest |
| NotificationsApi.ListCounts | backend/app/api/notifications.py:33-39 | with `unread_only` the total equals the unread count; without it the unread count never exceeds the total |
| NotificationsApi.MarkNotificationRead | backend/app/api/notifications.py:58-91 | 404 and no change unless the caller owns a row with that id; otherwise that row alone becomes read at `now` |
| NotificationsApi.MarkAllNotificationsRead | backend/app/api/notifications.py:93-113 | the caller's unread rows become read, the caller has none left, and no other user's rows change |
| NotificationsApi.DeleteNotification | backend/app/api/notifications.py:115-135 | 404 and no change unless the caller owns a row with that id; otherwise exactly that row is removed |
| NotificationsApi.GetUnreadCount | backend/app/api/notifications.py:137-147 | the number of the caller's unread rows |
| CommentsApi.AddComment | backend/app/api/comments.py:15-55 | succeeds exactly when the drift exists and the content is not all Python white space; 404 for an unknown drift, checked first; then 400 for blank content; either error adds nothing; otherwise one comment with the stripped content, the caller as author and the given drift |
| CommentsApi.ListComments | backend/app/api/comments.py:57-94 | 422 for bad bounds, then 404 for an unknown drift; otherwise that drift's comments oldest first and paginated, `total` counting all of them; without `limit` and `offset` a known drift answers its first 50 comments |
| CommentsApi.GetComment | backend/app/api/comments.py:96-114 | the comment with that id, or 404 exactly when there is none |
| CommentsApi.DeleteComment | backend/app/api/comments.py:116-139 | succeeds exactly when the comment exists and the caller wrote it; 404 when missing, 403 when the caller is not the author, no change on either; otherwise exactly that comment is removed |
| DriftsApi.ViewOf | backend/app/api/drifts.py:44-47 | the loaded creator and assignee are the users with the referenced ids; the assignee is loaded only for a truthy id |
| DriftsApi.ViewOfMissing | backend/app/api/drifts.py:44-47 | a relationship stays empty only when no user has the referenced id |
| DriftsApi.CreateDrift | backend/app/api/drifts.py:15-52 | 400 and nothing inserted exactly when a truthy `assigned_to_id` names no user; otherwise one drift with the caller as creator, the request's title, description and assignee, its priority or else MEDIUM, status OPEN and the next id, answered with the caller's own record as creator |
| DriftsApi.LikeAnything | backend/app/api/drifts.py:83-84 | the pattern `%` matches every string |
| DriftsApi.LikeLiteralPrefix | backend/app/api/drifts.py:83-84 | a wildcard-free literal followed by `%` matches exactly the strings it starts |
| DriftsApi.LikePercentThen | backend/app/api/drifts.py:83-84 | a leading `%` lets the rest of the pattern match any suffix |
| DriftsApi.SearchIsSubstring | backend/app/api/drifts.py:80-86 | for a search without wildcards, `ILIKE '%search%'` is a case-insensitive substring test |
| DriftsApi.MatchesMeaning | backend/app/api/drifts.py:69-86 | for a search without SQL wildcards, a drift is listed iff it has the given status and priority, the truthy assignee and creator ids, and its title or description contains the non-empty search text ignoring case; with no filter every drift is listed |
| DriftsApi.Ordered | backend/app/api/drifts.py:93-96 | `created_at` order: the matches as stored for `asc`, reversed for `desc` |
| DriftsApi.ViewsOf | backend/app/api/drifts.py:101-138 | one view per listed drift, in order |
| DriftsApi.ListingPage | backend/app/api/drifts.py:69-99 | the page has `min(limit, total - offset)` drifts, each in the table and matching every filter, and entry `k` is match number `offset + k` counted from the oldest for asc and from the newest for desc |
| DriftsApi.LoadViews | backend/app/api/drifts.py:101-130 | the loop builds exactly `ViewsOf` the page: one view per drift, in order, each with its users loaded |
| DriftsApi.DefaultListingPage | backend/app/api/drifts.py:61-64 | with the default `limit` 20, `offset` 0 and `desc` order, the page is the `min(20, matches)` newest matches, newest first |
| DriftsApi.ListDrifts | backend/app/api/drifts.py:54-138 | 422 unless `1 <= limit <= 100`, `offset >= 0` and the sort order is asc or desc; otherwise every listed drift satisfies every supplied filter, `total` is the filtered count before paging, and the page is `ListingPage`; without paging parameters the page is the 20 newest matches |
| DriftsApi.GetDrift | backend/app/api/drifts.py:140-160 | the drift with that id and its users, or 404 exactly when there is none |
| DriftsApi.SetField | backend/app/api/drifts.py:189 | `setattr`: that column takes the value and every other column keeps its own |
| DriftsApi.FieldValue | backend/app/api/drifts.py:182 | a value the client set always fits its column |
| DriftsApi.SetPairs | backend/app/api/drifts.py:182 | the set columns among those listed, each once, with the value set |
| DriftsApi.UpdateData | backend/app/api/drifts.py:182 | `model_dump(exclude_unset=True)`: exactly the columns the client set, each once, with their values |
| DriftsApi.AppliedSets | backend/app/api/drifts.py:183-189 | the loop sets every requested column to its value and leaves every other column as stored |
| DriftsApi.RecordedChanged | backend/app/api/drifts.py:186-188 | `new_values` holds exactly the requested columns whose stored value differed |
| DriftsApi.OldValuesRecorded | backend/app/api/drifts.py:186-188 | `old_values` has the same columns as `new_values`, each with the value it held before |
| DriftsApi.UpdateApplied | backend/app/api/drifts.py:182-189 | over the set columns of a request, each column ends as set or as stored, and the diff is exactly the changed columns |
| DriftsApi.ApplyUpdate | backend/app/api/drifts.py:177-189 | the loop of `update_drift` meets `UpdateApplied`: set columns take their value, no other column changes, and the recorded diff is exactly the changed columns with their old values |
| DriftsApi.UpdateDrift | backend/app/api/drifts.py:162-209 | succeeds exactly when the drift exists and no non-null, non-zero `assigned_to_id` names a missing user; 404 for an unknown drift; 400 for such an assignee; no change on either; otherwise only that drift changes, as `ApplyUpdate` says |
| UsersApi.SummaryOf | backend/app/api/users.py:50-61 | the shown user keeps id, name, address and activity, and its role reads "admin" exactly for an administrator |
| UsersApi.AddKeepsUnique | backend/app/api/users.py:22-48 | adding a user whose name and address are both new keeps names and addresses unique |
| UsersApi.CreateUser | backend/app/api/users.py:14-62 | succeeds exactly when the caller is an administrator and neither the user name nor the address is taken; the admin check first; then 400 "Username already exists", checked before 400 "Email already exists"; no change on any error; otherwise exactly one user appended with the given role and activity, a plain active user when the body leaves them out, and uniqueness kept |
| UsersApi.ListUsers | backend/app/api/users.py:64-87 | after the admin check, every user in table order, with `total` equal to their number |
| UsersApi.GetUser | backend/app/api/users.py:89-102 | after the admin check, the user with that id, or 404 exactly when there is none |
| AuthApi.ProfileOf | backend/app/api/auth.py:50-58 | the shown user keeps id, name, address and full name, and its role reads "admin" exactly for an administrator |
| AuthApi.BootstrapAdmin | backend/app/api/auth.py:14-60 | succeeds exactly when there is no user yet and user name, address and password are non-empty; 400 when any user exists, then 400 for an empty field; no change on either; otherwise exactly one active administrator is created |
| AuthApi.Login | backend/app/api/auth.py:62-96 | 401 "Invalid credentials" exactly when the password check fails; 400 for an inactive user only after a passing check; otherwise a bearer token for the user name and the user's role |
| AuthApi.LoginAgreesWithAuthenticated | backend/app/api/auth.py:68-80 | login accepts exactly the users `get_authenticated_user` accepts, with the same errors |
| AuthApi.LoginTokenAuthenticates | backend/app/api/auth.py:83-95 | the token a login issues authenticates the same user on the token path, when verification gives back the issued subject |
| Dependencies.BasicChecks | backend/app/utils/dependencies.py:20-41 | the checks inside the `try`: 401 exactly when the password check fails, then 400 for an inactive user, otherwise that active user |
| Dependencies.GetCurrentUserBasic | backend/app/utils/dependencies.py:15-45 | every failure, the inactive-user 400 included, becomes 401 "Invalid authentication headers"; success is an active user whose password passed |
| Dependencies.TokenSubject | backend/app/utils/dependencies.py:52-80 | the user a verified token names by its `sub`, when there is one |
| Dependencies.TokenChecks | backend/app/utils/dependencies.py:52-85 | the checks inside the `try`: 401 for a token that does not verify or has no subject, 401 for an unknown subject, 400 for an inactive one |
| Dependencies.GetCurrentUserToken | backend/app/utils/dependencies.py:47-89 | every failure, inactive included, becomes 401 "Could not validate credentials"; success is exactly an active token subject |
| Dependencies.TokenUser | backend/app/utils/dependencies.py:98-105 | the token path of `get_current_user`: an active user named by a verified token |
| Dependencies.BasicUser | backend/app/utils/dependencies.py:108-114 | a decodable non-empty Basic header gives a user exactly when its name belongs to an active user whose password passes, and then that user |
| Dependencies.GetCurrentUser | backend/app/utils/dependencies.py:91-121 | the token path first; Basic only when the token path gave no user, and then exactly the Basic user; 401 exactly when neither gives one |
| Dependencies.GetAdminUser | backend/app/utils/dependencies.py:123-131 | 403 unless the user is an administrator, and then that user |
| Dependencies.AdminFromBasic | backend/app/utils/dependencies.py:123-131 | over its Basic dependency: a failed Basic check stays a 401; an authenticated administrator gets through as that user, and every other authenticated user gets 403 |
| Dependencies.GetAuthenticatedUser | backend/app/utils/dependencies.py:133-154 | not wrapped in `try`: 401 exactly when the password check fails, then 400 for an inactive user, otherwise that active user |
| Dependencies.BasicMasksInactive | backend/app/utils/dependencies.py:20-44 | the Basic dependency and `get_authenticated_user` accept the same users; only the first turns the inactive-user 400 into a 401 |
| Dependencies.TokenPathAgrees | backend/app/utils/dependencies.py:91-105 | a token the token dependency accepts gives the same user through `get_current_user` |
| ApiClient.HandleApiError | frontend/src/services/api.js:42-65 | with a response: `detail`, else `error`, else "Server error", and status and data copied; with only a request: the network text, 0 and null; otherwise the error's message or the fixed text, 0 and null; the message is always truthy |
| ApiClient.StatusFromServerOnly | frontend/src/services/api.js:42-65 | a non-zero status only ever comes from a server response |
| ApiClient.AuthorizationValue | frontend/src/services/api.js:16-19 | a header value exactly when a non-empty token is stored, and then `Bearer ` followed by it |
| ApiClient.BearerToken | frontend/src/services/api.js:18 | a bearer value read back is the prefix followed by the token |
| ApiClient.AuthorizationCarriesToken | frontend/src/services/api.js:16-19 | the header carries exactly the stored token (section 2.1 of RFC 6750) |
| ApiClient.RequestConfig.Authorize | frontend/src/services/api.js:14-25 | the request interceptor sets `Authorization` from the stored token, or changes nothing |
| ApiClient.Browser.RejectResponse | frontend/src/services/api.js:28-39 | the error is still rejected; a 401 removes the token and the user data and goes to /login; any other error leaves storage and location alone |
| ApiClient.Browser.Call | frontend/src/services/api.js:67-76 | a resource method resolves with the response body, or rejects with the normalised error, the 401 rule applied |
| ApiClient.UnauthorizedLogsOut | frontend/src/services/api.js:31-35 | after a 401 the next request carries no credentials |
| UseNotifications.MarkRead | frontend/src/hooks/useNotifications.js:42-46 | the same length and order; each entry keeps its id and other properties and is read iff it was read or has that id |
| UseNotifications.MarkAll | frontend/src/hooks/useNotifications.js:59-61 | every entry read, all else as it was |
| UseNotifications.MarkReadNoUnread | frontend/src/hooks/useNotifications.js:42-46 | marking an id no unread entry has changes nothing |
| UseNotifications.MarkReadCount | frontend/src/hooks/useNotifications.js:42-47 | with distinct ids the list loses one unread entry when the id is there unread and none otherwise, while the hook's count drops by one in both cases, floored at zero |
| UseNotifications.MarkAllSettles | frontend/src/hooks/useNotifications.js:59-62 | after a mark-all no entry is unread, and a second mark-all changes nothing |
| UseNotifications.MarkReadIdempotent | frontend/src/hooks/useNotifications.js:42-46 | marking the same id twice is the same as once |
| UseNotifications.NotificationsState.constructor | frontend/src/hooks/useNotifications.js:5-8 | the hook starts with no notifications, a zero count, not loading and no error |
| UseNotifications.NotificationsState.FetchNotifications | frontend/src/hooks/useNotifications.js:11-24 | success replaces the list and the count (missing ones read as empty and zero) and clears the error; failure keeps both and records the message; loading ends false |
| UseNotifications.NotificationsState.FetchUnreadCount | frontend/src/hooks/useNotifications.js:27-34 | success sets the count (zero when missing); failure changes nothing and sets no error |
| UseNotifications.NotificationsState.MarkAsRead | frontend/src/hooks/useNotifications.js:37-51 | success marks that id read and sets the count to `max(0, count - 1)`; failure keeps list and count and records the message |
| UseNotifications.NotificationsState.MarkAllAsRead | frontend/src/hooks/useNotifications.js:54-66 | success marks every entry read and zeroes the count, leaving no unread entry; failure keeps list and count and records the message |
| UseNotifications.FailureMessagesShow | frontend/src/hooks/useNotifications.js:20 | every recorded failure message is truthy, so it is shown |
| Forms.ClearFieldError | frontend/src/components/Auth/LoginForm.jsx:78-84 | the field's error is hidden, the keys stay, other fields' errors are unchanged, and a hidden error is left alone |
| Forms.ClearFieldErrorIdempotent | frontend/src/components/Drifts/DriftForm.jsx:96-102 | a second edit of the same field changes the errors no further |
| Forms.ErrorObjectEntries | frontend/src/components/Auth/LoginForm.jsx:18-42 | the error object has an entry under a field's name exactly when that check found a message, that message, and no other key |
| Forms.ErrorObjectEmpty | frontend/src/components/Auth/LoginForm.jsx:43-44 | the error object is empty exactly when no check found anything |
| Forms.PutCommutes | frontend/src/components/Admin/UserList.jsx:43-44 | checks of different fields may run in either order |
| LoginForm.EmailShapedParts | frontend/src/components/Auth/LoginForm.jsx:34 | every `local@domain.tld` with non-empty, space-free parts matches `\S+@\S+\.\S+` |
| LoginForm.EmailNeedsAt | frontend/src/components/Auth/LoginForm.jsx:34 | a string without `@` never matches |
| LoginForm.UsernameError | frontend/src/components/Auth/LoginForm.jsx:21-23 | an error iff the trimmed name is empty, "Username is required" |
| LoginForm.PasswordError | frontend/src/components/Auth/LoginForm.jsx:25-29 | "required" when empty, "at least 6" when shorter than six, otherwise none |
| LoginForm.EmailError | frontend/src/components/Auth/LoginForm.jsx:31-36 | only in bootstrap mode: "required" when blank, otherwise "invalid" when the pattern does not match |
| LoginForm.FullNameError | frontend/src/components/Auth/LoginForm.jsx:38-40 | only in bootstrap mode: an error iff blank |
| LoginForm.LoginErrorsEntries | frontend/src/components/Auth/LoginForm.jsx:18-42 | the error object has an entry exactly for each failed check, holding its message, every entry truthy |
| LoginForm.SignInChecksTwoFields | frontend/src/components/Auth/LoginForm.jsx:18-44 | outside bootstrap mode the form is valid exactly when the name has a non-space character and the password six characters |
| LoginForm.LoginFormState.constructor | frontend/src/components/Auth/LoginForm.jsx:9-16 | the four fields start empty, with no errors |
| LoginForm.LoginFormState.ValidateForm | frontend/src/components/Auth/LoginForm.jsx:18-45 | stores exactly the errors of the form and returns true iff there are none |
| LoginForm.LoginFormState.HandleSubmit | frontend/src/components/Auth/LoginForm.jsx:47-69 | no call when validation fails; otherwise the context's error is cleared first, then bootstrap mode sends the whole form and sign-in mode only name and password |
| LoginForm.LoginFormState.HandleInputChange | frontend/src/components/Auth/LoginForm.jsx:71-85 | only the named field changes, and only its error is hidden |
| DriftForm.FormOf | frontend/src/components/Drifts/DriftForm.jsx:33-38 | the fetched drift's values, "" for a missing title, description or assignee and "medium" for a missing priority |
| DriftForm.DriftErrors | frontend/src/components/Drifts/DriftForm.jsx:46-55 | a title error iff the trimmed title is empty, and no other key |
| DriftForm.PayloadOf | frontend/src/components/Drifts/DriftForm.jsx:68-73 | title and description are the typed text with white space removed at both ends, a contiguous infix, the description with non-space ends; the priority unchanged; a falsy assignee sent as null |
| DriftForm.ValidFormSendsTitle | frontend/src/components/Drifts/DriftForm.jsx:49-73 | a form that passes validation sends a non-empty title |
| DriftForm.FetchThenSubmit | frontend/src/components/Drifts/DriftForm.jsx:33-73 | a fetched drift saved unchanged sends its own priority and assignee back, and passes exactly when its title is not blank |
| DriftForm.DriftFormState.constructor | frontend/src/components/Drifts/DriftForm.jsx:11-21 | empty title, description and assignee, priority "medium", no errors, not loading and nowhere to go |
| DriftForm.DriftFormState.FetchDrift | frontend/src/components/Drifts/DriftForm.jsx:29-44 | success replaces the form with `FormOf`; failure keeps it and records the message; loading ends false |
| DriftForm.DriftFormState.ValidateForm | frontend/src/components/Drifts/DriftForm.jsx:46-55 | stores exactly the errors and returns true iff there are none |
| DriftForm.DriftFormState.HandleSubmit | frontend/src/components/Drifts/DriftForm.jsx:57-87 | no call when validation fails; otherwise update of `id` in edit mode and create otherwise, with `PayloadOf`; success goes to /drifts, failure records the message; loading ends false |
| DriftForm.DriftFormState.Send | frontend/src/components/Drifts/DriftForm.jsx:64-86 | the call the mode selects, then the navigation or the error, then loading off |
| DriftForm.DriftFormState.HandleInputChange | frontend/src/components/Drifts/DriftForm.jsx:89-103 | only the named field changes, and only its error is hidden |
| UserList.CreateErrorsEntries | frontend/src/components/Admin/UserList.jsx:41-45 | name, address and full name are required after trimming and the password without trimming; no other entry |
| UserList.CreateAccepted | frontend/src/components/Admin/UserList.jsx:41-50 | the form is accepted exactly when the three trimmed fields and the password are non-empty |
| UserList.CollectErrors | frontend/src/components/Admin/UserList.jsx:41-45 | the checks run in source order build exactly `CreateErrors` |
| UserList.BlankErrorTrims | frontend/src/components/Admin/UserList.jsx:42-45 | a required-field error is given exactly when the trimmed value is empty |
| UserList.UserListState.constructor | frontend/src/components/Admin/UserList.jsx:7-20 | no users yet, loading, no error, the create form hidden and empty, with no errors |
| UserList.UserListState.FetchUsers | frontend/src/components/Admin/UserList.jsx:26-36 | success sets the users (an empty list when missing) and clears the error; failure keeps the list and records the message; loading ends false |
| UserList.UserListState.Validate | frontend/src/components/Admin/UserList.jsx:41-50 | accepted iff there are no errors; otherwise exactly those errors are stored |
| UserList.UserListState.HandleCreateUser | frontend/src/components/Admin/UserList.jsx:38-67 | with errors nothing is sent and only the errors change; otherwise the form is sent as typed, success resets and hides it, clears the errors and refetches, failure shows only a `submit` error and keeps the values |
| UserList.UserListState.Submit | frontend/src/components/Admin/UserList.jsx:52-66 | the `try` block: the reset and refetch on success, the `submit` error alone on failure |
| UserList.UserListState.HandleInputChange | frontend/src/components/Admin/UserList.jsx:69-75 | only the named field changes, and only its error is hidden |
| UserList.UserListState.HandleToggleCreate | frontend/src/components/Admin/UserList.jsx:93-98 | the header button opens a closed create form and closes an open one |
| UserList.UserListState.HandleCancel | frontend/src/components/Admin/UserList.jsx:197-202 | the form's Cancel hides the form and clears its errors; the typed values stay |
| DriftList.BuildParams | frontend/src/components/Drifts/DriftList.jsx:25-32 | the parameters contain exactly the filters with non-empty values, with the same values |
| DriftList.EmptyStateText | frontend/src/components/Drifts/DriftList.jsx:170-173 | "Try adjusting..." iff some filter is set, otherwise "Get started..." |
| DriftList.ShowsCreateLink | frontend/src/components/Drifts/DriftList.jsx:175-182 | the create link shows exactly when every filter is empty |
| DriftList.EmptyStateFollowsParams | frontend/src/components/Drifts/DriftList.jsx:25-32 | the empty list suggests changing the filters exactly when the fetch sent a parameter, and offers the link exactly when it sent none |
| DriftList.StatusLabel | frontend/src/components/Drifts/DriftList.jsx:226 | same length; only the first underscore becomes a space and every other character stays |
| DriftList.StatusLabelPlain | frontend/src/components/Drifts/DriftList.jsx:226 | a status without an underscore is shown as it is |
| DriftList.StatusLabelFirstOnly | frontend/src/components/Drifts/DriftList.jsx:226 | only the first underscore is replaced, later ones are kept: "in_progress" reads "in progress" |
| DriftList.DriftListState.constructor | frontend/src/components/Drifts/DriftList.jsx:8-16 | no drifts yet, loading, no error, and all four filters empty |
| DriftList.DriftListState.FetchDrifts | frontend/src/components/Drifts/DriftList.jsx:22-42 | sends `ActiveFilters`; success sets the drifts (an empty list when missing) and clears the error; failure keeps the list and records the message; loading ends false |
| DriftList.DriftListState.HandleFilterChange | frontend/src/components/Drifts/DriftList.jsx:44-49 | only the named filter changes |
| DriftList.FilterChangeParams | frontend/src/components/Drifts/DriftList.jsx:44-49 | one filter change alters the parameters at that key only: sent with a non-empty value, dropped with an empty one |
| AppRoutes.ProtectedRoute | frontend/src/App.jsx:21-29 | spinner while loading, then the children when signed in and a redirect to /login otherwise |
| AppRoutes.AdminRoute | frontend/src/App.jsx:32-48 | spinner while loading, /login when signed out, /drifts for any role but admin, otherwise the children |
| AppRoutes.AuthCheck | frontend/src/App.jsx:63-78 | spinner while loading, /drifts when signed in, and the sign-in form exactly when signed out |
| AppRoutes.Match | frontend/src/App.jsx:82-147 | a route is selected only for the location it is declared for, and `/drifts/new` selects the new-drift page over `/drifts/:id` |
| AppRoutes.MatchPathOf | frontend/src/App.jsx:82-147 | every declared route except `/drifts/:id` with id "new" is selected by its own location, so none is shadowed |
| AppRoutes.Render | frontend/src/App.jsx:82-147 | a page is shown only to a signed-in user and the user administration only to an administrator; the sign-in form only at /login; every redirect goes to /login or /drifts |
| AppRoutes.LoadingFirst | frontend/src/App.jsx:24 | while the context loads every location shows the spinner |
| AppRoutes.SignedOutGoesToLogin | frontend/src/App.jsx:84-146 | someone signed out is sent to /login from every other location and sees the form there |
| AppRoutes.OnlyAdminRouteReadsRole | frontend/src/App.jsx:128-134 | /admin/users is the only location whose element depends on the user's role |
| AppRoutes.AdminPageAccess | frontend/src/App.jsx:32-48 | the user administration shows exactly to a signed-in administrator; anyone else signed in goes to /drifts |
| AppRoutes.RedirectsSettle | frontend/src/App.jsx:84-146 | every redirect reaches a location that renders without a further redirect |
| NotificationBell.Badge | frontend/src/components/Notifications/NotificationBell.jsx:56-60 | a badge iff the count is positive; "99+" above 99, else the count |
| NotificationBell.BadgeFits | frontend/src/components/Notifications/NotificationBell.jsx:56-77 | the badge holds one to three characters and shows exactly when "Mark all as read" does |
| NotificationBell.FormatDateBuckets | frontend/src/components/Notifications/NotificationBell.jsx:34-43 | "Just now" under a minute (future dates included), 1-59 whole minutes under an hour, 1-23 whole hours under a day, the date text otherwise |
| NotificationBell.FormatDate | frontend/src/components/Notifications/NotificationBell.jsx:34-43 | "Just now" under a minute, digits then "m ago" under an hour, digits then "h ago" under a day, the date text otherwise |
| NotificationBell.MarkAllHidesControls | frontend/src/components/Notifications/NotificationBell.jsx:131-140 | after a mark-all no entry of the bell's list offers its "Mark as read" |
| NotificationBell.MarkReadHidesControl | frontend/src/components/Notifications/NotificationBell.jsx:131 | after a mark-read only the entries with that id lose their control |
| NotificationBell.HandleMarkAllAsRead | frontend/src/components/Notifications/NotificationBell.jsx:29-31 | a success empties the bell's own unread list, while the header's count, and so the badge and "Mark all as read", stay as they were |
| NotificationBell.HandleMarkAsRead | frontend/src/components/Notifications/NotificationBell.jsx:25-27 | a success marks the id read in the bell's own list, while the header's count behind the badge stays |
| NotificationBell.StaleBadgeAfterMarkAll | frontend/src/components/Layout/Header.jsx:10-59 | with a header count of 5, after a successful mark-all no entry is unread, yet the badge reads "5" and "Mark all as read" is still offered |
| NotificationBell.HandleMarkAllAsReadShared | frontend/src/hooks/useNotifications.js:54-66 | with the count read from the same hook instance, a success leaves no badge and no mark-read control of either kind; a failure leaves the badge |
| NotificationBell.BellState.constructor | frontend/src/components/Notifications/NotificationBell.jsx:7 | the dropdown starts closed |
| NotificationBell.BellState.HandleToggle | frontend/src/components/Notifications/NotificationBell.jsx:22-24 | a click flips the dropdown |
| NotificationBell.BellState.HandleClickOutside | frontend/src/components/Notifications/NotificationBell.jsx:12-16 | a mousedown outside the mounted dropdown closes it; any other leaves it |
| UseTheme.InitialTheme | frontend/src/hooks/useTheme.js:4-14 | the saved theme when non-empty, otherwise dark iff the system prefers dark; light without a window |
| UseTheme.Toggled | frontend/src/hooks/useTheme.js:26-28 | light becomes dark and anything else light |
| UseTheme.ToggleTwice | frontend/src/hooks/useTheme.js:26-28 | toggling twice gives back light or dark; any other saved value ends as dark |
| UseTheme.AppliedClasses | frontend/src/hooks/useTheme.js:19-20 | the theme is a class, neither light nor dark is left unless it is the theme, and other classes stay |
| UseTheme.ThemeState.constructor | frontend/src/hooks/useTheme.js:4-14 | the first render takes `InitialTheme` of the stored value and the preference, and touches neither classes nor storage |
| UseTheme.ThemeState.Apply | frontend/src/hooks/useTheme.js:17-23 | with a document, the root shows this theme and not the other, and it is saved; without one nothing changes |
| UseTheme.ThemeState.ToggleTheme | frontend/src/hooks/useTheme.js:26-28 | the toggled theme, then the effect |
| UseTheme.ThemeState.SetTheme | frontend/src/hooks/useTheme.js:31-33 | exactly the given value, then the effect |
| UseTheme.SavedThemeRestored | frontend/src/hooks/useTheme.js:7-10 | a saved non-empty theme is the first theme of the next visit with a window |

## Left out

- The `created_at`, `updated_at`, `resolved_at` and `closed_at` timestamps are not stored. Tables are in insertion order, so ordering by `created_at` is insertion order or its reverse.
- The clock is a parameter (`now`), wherever the code reads one.
- DriftsApi.SearchMatches: the `LIKE` matcher has no escape character. A database that escapes with a backslash by default treats `\%` and `\_` in a search as literal characters; here they stay a backslash followed by a wildcard.
- `sort_by` in `list_drifts` is resolved by `getattr` reflection. Only the default `created_at` ordering is modelled.
- The `created_by` and `assigned_to` relationships are loaded as values (`DriftsApi.ViewOf`). The ORM identity map and lazy loading are not modelled. The same goes for comment authors.
- NotificationsApi.ListNotifications: the drift that `list_notifications` loads into each listed notification is not part of the answer here; the page holds the rows alone.
- `comment_count` and `event_count` of the drift response are not modelled.
- `json.dumps` is an opaque encoding that keeps the payload (`Models.Encoded`). Its text is not modelled.
- White space is JavaScript's (`trim`, `\s`) on the client and Python's (`str.strip`) on the server, each as its own set of characters (`Common.IsSpace`, `Common.IsPySpace`). Case mapping and `str.title` cover ASCII letters only.
- String lengths count characters. JavaScript counts UTF-16 code units.
- `NaN`, floating-point numbers and non-integer counts are not modelled. JavaScript numbers are integers here.
- The commit, refresh and rollback of the session are not modelled. The 400 of `update_drift` for an unknown assignee is raised after `setattr` and before the commit; it is modelled as leaving the table unchanged.
- `update_drift`: a JSON `null` sent for the title, the status or the priority is not modelled; an update carries a value for each of them or leaves it out. Only the title is NOT NULL, so a null title fails at commit, while a null status or priority is committed and the answer then fails to build the drift response, a 500 after the change.
- The TODO hooks are not modelled. The endpoints never call the event or notification services, and the model does not either.
- `create_assignment_notification` and `get_user_events` are outside the modelled core.
- The `/me` endpoint of `auth.py` is not part of this model.
- FastAPI's own errors for a missing or malformed header or body are not modelled. Pydantic's `EmailStr` validation is not modelled either.
- Password hashing, JWT encoding and verification, and Basic header decoding are uninterpreted function values.
- A token payload that is an empty dictionary is not modelled.
- The authentication context (`AuthContext`) is not part of this model. Its `login`, `bootstrapAdmin` and `clearError` are returned as call values, and its `isAuthenticated`, `isLoading` and `user` are the guards' input.
- React's rendering, effects and their dependency lists are not modelled. Polling with `setInterval`, `console.error` and the JSX markup are not modelled either.
- State updates happen in the order the handler issues them. React's batching is not modelled.
- The route table matches path segments. React Router's splitting of the URL, its trailing-slash and case handling, and `replace` navigation are not modelled.
- `formatDate` after a day answers with the browser's `toLocaleDateString`, which is a parameter. An invalid date, where the difference is `NaN`, is not modelled.
- The outside-click listener of the bell takes whether the dropdown is mounted and whether the click was inside it as parameters. The DOM is not modelled.
- The header and the bell each hold their own instance of the notifications hook; the two are separate `NotificationsState` objects here, and the header's polling is left out.
- UseTheme.ThemeState.SetTheme: an empty theme, or one containing white space, is added to the root's classes like any other. The browser's `classList.add` throws for both instead, and that exception is not modelled. The same holds for `UseTheme.AppliedClasses` and for such a theme read back from storage.
- NotificationService.CleanupOldNotifications: the default age of 30 days is not modelled; the caller always gives `daysOld`.
- UseNotifications.NotificationsState.FetchNotifications: a count the answer gives as another falsy value than a missing one or 0 (`null`, `""`) is not modelled. Such a count is `None` here.

## Findings

| source | as written | input that shows it | evidently intended | confidence | as-written member | corrected member |
|---|---|---|---|---|---|---|
| frontend/src/components/Layout/Header.jsx:10 | the header reads `unreadCount` from its own `useNotifications()` and passes it to the bell, while the bell's mark-read and mark-all callbacks update a second instance of the hook (NotificationBell.jsx:6) | the header has polled a count of 5; the user clicks "Mark all as read" and the call succeeds: the bell's list has no unread entry, yet the badge still reads 5 and "Mark all as read" is still offered until the header's next poll | the badge and "Mark all as read" follow the count that the mark-all resets, so both disappear after it | not executed | NotificationBell.StaleBadgeAfterMarkAll | NotificationBell.HandleMarkAllAsReadShared |

# Todo backend and dashboard: a Dafny model

This project models the core of a todo application. The backend is a FastAPI
service. Each user owns a list of tasks, which they can manage through two
routes:

- REST handlers under `/api/{user_id}/tasks`;
- a chat endpoint, whose language-model agent calls five task tools (add,
  list, complete, delete, update).

Authentication uses signed bearer tokens. Passwords are hashed with bcrypt.
Logout adds the token to an in-memory revocation set. The dependency that
resolves the current user (`CurrentUser`, bound to `flexible_current_user`)
accepts a valid token. Without credentials it falls back to a fresh UUID.

Errors reach the client as a JSON envelope `{error, message, details}`. At
start-up, the configured database URL is rewritten for the asyncpg driver.
The Next.js frontend keeps the task list in React state and reconciles it
after creations, edits and deletions. A middleware sends signed-out visitors
to the sign-in page.

The model follows the program's structure, with one Dafny module per source
file:

- **Task table.** `Tables.TaskTable` holds the task rows by primary key,
  together with the next autoincrement value. The agent tools
  (`AgentTools`) and the REST handlers (`TaskRoutes`) both work on it.
- **Chat tables.** `ChatTables.Tables` holds the conversation and message
  tables of the chat routes (`Chat`).
- **User table.** `AuthRoutes.UserTable` holds the users.
- **Revocation set.** `AuthUtils.TokenBlacklist` is a class whose methods
  change its set in place.
- **Pure code.** The token checks, error envelopes, URL rewrite, list
  updaters and route guard are functions.
- **Loops.** The `setattr` loop, the listing loop, the history and
  extraction loops, and the frontend `reduce` are methods. Each is proved
  equal to a function, and the lemmas are about that function.

The code's collaborators are function-typed parameters, with no behaviour
assumed beyond what each contract states:

- JWT signing and signature checking (the library's expiry check is modelled);
- bcrypt;
- the UUID format check;
- JSON parsing and rendering;
- the agent run;
- `urllib.parse`.

The clock is an integer. UTF-8, Python's `str.strip` and the string
operations the code relies on are defined in `Utf8` and `Text`.

Where a database query has no `ORDER BY`, rows come back in ascending
primary key. Messages are ordered by `created_at`, which is modelled as
ascending message id.

## Model

| member | source | states |
|---|---|---|
| AgentTools.StatusFilter | backend/agent_tools.py:46-50 | "pending" selects incomplete tasks, "completed" completed ones, any other status no completion filter |
| AgentTools.AddTask | backend/agent_tools.py:26-34 | one new row under the next id, owned by the context user, stripped title, not completed, description None when empty and stripped otherwise; the reply names title and id; no other row changes |
| AgentTools.FormatListing | backend/agent_tools.py:55-64 | the line-building loop yields the listing reply: "No tasks found." / "No {status} tasks found." when empty, otherwise a header counting the tasks and one line per task |
| AgentTools.ListTasks | backend/agent_tools.py:43-64 | the reply lists exactly the context user's tasks passing the status filter, by ascending id |
| AgentTools.MarkCompleted | backend/agent_tools.py:83-84 | the row becomes completed whatever it was, with the new timestamp, every other field kept |
| AgentTools.MarkCompletedIdempotent | backend/agent_tools.py:83 | completing twice equals completing once |
| AgentTools.CompleteTask | backend/agent_tools.py:76-87 | lookup by (id, context user); a miss replies "Task with ID {id} not found." and changes nothing; a hit stores the completed row and changes no other |
| AgentTools.DeleteTask | backend/agent_tools.py:99-109 | lookup by (id, context user); a miss changes nothing; a hit removes exactly that row and names its title |
| AgentTools.ToolUpdated | backend/agent_tools.py:130-135 | a given title is stripped, a given description stripped with "" becoming None, absent arguments keep the field; id, owner, completion and creation time never change |
| AgentTools.UpdateTask | backend/agent_tools.py:123-138 | lookup by (id, context user); a miss changes nothing; a hit stores exactly the updated row |
| Auth.JwtDecode | backend/auth.py:21 | the library gives the signed claims back exactly when they decode and any exp is not before now |
| Auth.VerifyToken | backend/auth.py:14-38 | a user id exactly when the token decodes, carries a userId, and any exp is not before now (strict comparison); the id is the claim unchanged |
| Auth.VerifyTokenEarlier | backend/auth.py:30-34 | a token accepted at some time is accepted, with the same id, at every earlier time |
| Auth.GetCurrentUser | backend/auth.py:41-56 | 401 with a bearer challenge exactly when verification fails, otherwise the verified id |
| AuthRoutes.TruncatePassword | backend/routes/auth.py:25-33 | a password of at most 72 UTF-8 bytes is returned unchanged |
| AuthRoutes.TruncateIsLongestFittingPrefix | backend/routes/auth.py:29-32 | the result is the longest character prefix whose UTF-8 encoding fits in 72 bytes |
| AuthRoutes.TruncateIdempotent | backend/routes/auth.py:25-33 | truncating twice equals truncating once |
| AuthRoutes.VerifyPassword | backend/routes/auth.py:35-44 | true exactly when the hash library accepts the truncated password; a ValueError is false |
| AuthRoutes.HashAndCheckSeeTruncation | backend/routes/auth.py:39-48 | passwords with the same truncation get the same hash and the same verdict; a hash verifies the password it was made from when the library accepts its own hash |
| AuthRoutes.ExpiryOf | backend/routes/auth.py:79-84 | expiry is now + delta for a non-zero delta, now + 15 minutes otherwise, in UTC epoch seconds |
| AuthRoutes.WrittenExpiry | backend/routes/auth.py:80-84 | as written, the exp claim equals the intended expiry only on a UTC host, and is earlier on any host ahead of UTC |
| AuthRoutes.WrittenTokenExpiresEarly | backend/routes/auth.py:80-84 | as written, on a host one hour ahead of UTC a default-lifetime token is refused when issued and a login token after 23 hours |
| AuthRoutes.DecodeAccessToken | backend/routes/auth.py:89-97 | the userId exactly when the token decodes, carries one, and any exp is not before now |
| AuthRoutes.VerifiedTokenDecodes | backend/routes/auth.py:89-97 | decode_access_token and verify_token accept the same tokens at every time, with the same id |
| AuthRoutes.IssuedTokenLifetime | backend/routes/auth.py:77-86 | a token issued for a user is decoded and verified as that user exactly until its expiry, and by neither after it |
| AuthRoutes.FindUser | backend/routes/auth.py:103-105 | the user the query finds satisfies the condition (an email, at lines 103-105, or an id, at lines 200-202); none found means no user satisfies it |
| AuthRoutes.UserTable.constructor | backend/models.py:9-18 | an empty user table with unique ids and emails |
| AuthRoutes.UserTable.Add | backend/models.py:10 | appends a user with a new id and a new email, keeping both unique |
| AuthRoutes.DisplayName | backend/routes/auth.py:142-144 | a given non-empty name is kept; otherwise the text of the email before its first '@' |
| AuthRoutes.Register | backend/routes/auth.py:124-173 | 400 for an email already registered; otherwise the new user with the truncated-password hash and display name is stored and a 24-hour token returned; a rejected insert is a 500 and stores nothing |
| AuthRoutes.Login | backend/routes/auth.py:101-120 | a 24-hour token exactly when the email is known and the password verifies; otherwise the same 401 |
| AuthRoutes.Me | backend/routes/auth.py:177-217 | a revoked token is a 401 before decoding; an undecodable or expired one a 401; an unknown user a 401; otherwise the user's id, email and name |
| AuthRoutes.Logout | backend/routes/auth.py:223-232 | the token joins the revocation set; the reply is "Successfully logged out" |
| AuthUtils.TokenBlacklist.constructor | backend/auth_utils.py:6 | the set starts empty |
| AuthUtils.TokenBlacklist.IsBlacklisted | backend/auth_utils.py:9-13 | true exactly for tokens in the set |
| AuthUtils.TokenBlacklist.Blacklist | backend/auth_utils.py:16-20 | the token is revoked afterwards; revoking it again changes nothing; other tokens keep their status |
| AuthUtils.TokenBlacklist.Remove | backend/auth_utils.py:23-27 | the token is not revoked afterwards, also when it was absent; other tokens keep their status |
| AuthUtils.TokenBlacklist.Clear | backend/auth_utils.py:30-34 | no token is revoked afterwards |
| Chat.CheckUserAuthorization | backend/routes/chat.py:39-44 | 403 exactly when the caller is not the path user |
| Chat.GetOrCreateConversation | backend/routes/chat.py:47-75 | a requested, owned conversation is used; else the user's only one; several are MultipleResultsFound; else a new one with the next id, owned by the user and created only when the user has none; the table gains at most that row; with at most one conversation per user it never fails and keeps that invariant |
| Chat.TurnsOf | backend/routes/chat.py:90-93 | one role/content entry per message, in order |
| ChatTables.ConversationMessages | backend/routes/chat.py:227-233 | exactly the stored messages of that conversation and user, by ascending id |
| ChatTables.Newest | backend/routes/chat.py:84-88 | the last `limit` elements (all when there are fewer), in order |
| ChatTables.LatestIsNewestWindow | backend/routes/chat.py:81-88 | the newest-first, limited query reversed is the newest `limit` messages of the conversation, oldest first |
| Chat.HistoryMessages | backend/routes/chat.py:78-93 | the history is the role/content of that window |
| Chat.AgentInput | backend/routes/chat.py:124 | the history followed by exactly one new user turn |
| Chat.StartedCall | backend/routes/chat.py:164-172 | a call record with an empty result, name "unknown" when missing or empty, arguments {} when they do not parse |
| Chat.Step | backend/routes/chat.py:161-177 | a call item appends its record; an output fills only the last record and only while its result is empty; other items, and outputs with no open record, change nothing; filled records never change |
| Chat.ExtractToolCalls | backend/routes/chat.py:159-177 | the extraction loop builds the paired log |
| Chat.PairedMatchesCalls | backend/routes/chat.py:159-177 | the log has one record per call item, in order, each started from that item |
| Chat.FilledResultStays | backend/routes/chat.py:176-177 | a record whose result is filled is not changed by later items |
| Chat.ToolCallsLog | backend/routes/chat.py:182-184 | no stored log exactly when there were no calls |
| Chat.ResponseText | backend/routes/chat.py:156 | the agent's text when non-empty, otherwise the apology; never empty |
| Chat.Ask | backend/routes/chat.py:111-124 | the agent input is built from the history read before the user message is stored; that message is then stored under the next id |
| Chat.Answer | backend/routes/chat.py:155-203 | stores the assistant message with the response text and the paired log, touches the conversation, and answers with them |
| Chat.Exchange | backend/routes/chat.py:111-203 | the agent runs on the newest 10 history messages followed by the new one; a failed run is a 500 "AI agent error: ..." with only the user message stored and no conversation touched; a finished one stores both messages in order, touches the conversation and returns the answer with its tool-call log |
| Chat.ChatTurn | backend/routes/chat.py:96-203 | 403 with nothing stored for another user; otherwise the conversation resolved as in GetOrCreateConversation, a failed resolution changing nothing, and the exchange of Exchange made on it, agent failure's 500 included; with one conversation per user it never hits MultipleResultsFound and keeps that invariant; a reply names a conversation the user owns |
| Chat.ViewOf | backend/routes/chat.py:236-252 | id, role, content and time kept; a missing, empty or unparseable log becomes None |
| Chat.GetChatHistory | backend/routes/chat.py:206-254 | 403 for another user; no id and no messages when the user has no conversation; otherwise every message of that conversation, oldest first, as views |
| ChatTables.UserConversations | backend/routes/chat.py:60-66 | exactly the user's conversations, by ascending id |
| ChatTables.Tables.constructor | backend/routes/chat.py:47-75 | empty conversation and message tables |
| ChatTables.Tables.FindConversation | backend/routes/chat.py:51-55 | found exactly when that id exists and the user owns it |
| ChatTables.Tables.AddConversation | backend/routes/chat.py:71-74 | a new conversation under the next id, owned by the user; messages unchanged |
| ChatTables.Tables.Touch | backend/routes/chat.py:195-196 | only the conversation's update time changes; one conversation per user is kept |
| ChatTables.Tables.AddMessage | backend/routes/chat.py:114-121 | a new message under the next id; conversations unchanged |
| DashboardPage.TaskCreated | frontend/app/dashboard/page.tsx:52-57 | the new task first, then only tasks with other ids from the previous list, every one of them kept |
| DashboardPage.TaskCreatedKeepsList | frontend/app/dashboard/page.tsx:52-57 | ids are the old ones plus the new one; length is the previous length minus the tasks sharing the id, plus one; unique ids stay unique |
| DashboardPage.CreatedVersusUpdated | frontend/app/dashboard/page.tsx:54-56 | creation and edit keep the same other tasks and differ only in placing the task first or last |
| DbUrl.KeptParams | backend/db.py:20-22 | no kept parameter has an SSL name after lower-casing; every other parameter is kept with its values |
| DbUrl.AsyncpgParts | backend/db.py:25-38 | scheme "postgresql+asyncpg"; netloc, path, params and fragment unchanged; the query empty when nothing is kept, otherwise the re-encoded kept parameters |
| DbUrl.DatabaseUrl | backend/db.py:8-42 | a "postgresql://" URL is rebuilt from those parts; another URL with the plain form has its first "postgresql://" replaced by the driver's form; a URL already naming the driver, or naming neither form, is unchanged |
| DbUrl.ReplacedHasDriver | backend/db.py:41-42 | replacing the first "postgresql://" leaves the driver's form in the URL |
| DbUrl.UpperCaseSslModeDropped | backend/db.py:22 | an upper-case SSLMODE is dropped while another parameter stays |
| Dependencies.FlexibleCurrentUser | backend/dependencies.py:49-68 | no or empty credentials give a fresh UUID and never fail; a present token gives 401 unless it verifies, then exactly its id |
| Dependencies.GetCurrentUserOrMock | backend/dependencies.py:22-45 | no credentials give "mock-user-dev"; any presented token follows get_current_user |
| Dependencies.DependenciesAgreeOnTokens | backend/dependencies.py:22-68 | the two dependencies agree on every non-empty token |
| Dependencies.RevokedTokenStillAccepted | backend/dependencies.py:49-71 | a logged-out token that still verifies is refused by /auth/me but accepted by CurrentUser |
| ErrorHandlers.HttpErrorMessage | backend/main.py:36 | a string detail is the message; any other detail its string rendering |
| ErrorHandlers.HttpExceptionResponse | backend/main.py:30-39 | status kept, error "http_error", details {status_code}, and no headers |
| ErrorHandlers.HttpExceptionResponseWithHeaders | backend/main.py:30-39 | the same envelope with the exception's headers passed on |
| ErrorHandlers.RequestValidationResponse | backend/main.py:42-51 | 422, "validation_error", "Request validation failed", the framework's errors |
| ErrorHandlers.ValidationExceptionResponse | backend/main.py:54-69 | an object detail gives its message (default "Validation error occurred") and details (default {}); any other detail is the message with details {} |
| ErrorHandlers.Handle | backend/main.py:30-69 | as written, a ValidationException gets its own handler and every other HTTP error the generic one; no response carries headers |
| ErrorHandlers.HandleFixed | backend/main.py:30-39 | the same dispatch with the generic handler passing the exception's headers on; it differs from Handle only in those headers |
| ErrorHandlers.HandleKeepsStatus | backend/main.py:30-69 | every handled error keeps its status and its envelope names the error kind |
| ErrorHandlers.ValidationRoundTrip | backend/main.py:54-63 | the envelope of ValidationException(m, d) carries m and d-or-{} at status 422 |
| ErrorHandlers.TaskNotFoundResponse | backend/main.py:30-39 | a task-not-found error reaches the client as a 404 naming the task |
| ErrorHandlers.InvalidTokenChallengeDropped | backend/main.py:32-39 | as written, the 401 of an invalid token loses its WWW-Authenticate header |
| ErrorHandlers.InvalidTokenChallengeKept | backend/exceptions.py:25-30 | with the corrected handler, the 401 keeps its bearer challenge |
| Exceptions.DetailsOrEmpty | backend/exceptions.py:41 | missing details become {}; given ones are kept |
| Exceptions.TaskNotFoundNamesTheTask | backend/exceptions.py:7-11 | a 404 without headers whose detail determines the task id |
| Exceptions.ValidationDetailCarriesArguments | backend/exceptions.py:35-43 | a 422 whose detail holds "validation_error", the message and the details |
| Json.Get | backend/main.py:60-61 | `dict.get`: the value under the key, otherwise the default |
| Middleware.Decide | frontend/middleware.ts:14-25 | sign-in redirect exactly for a non-public path without a token; dashboard redirect exactly for a public "/sign-in" or "/sign-up" with a token; otherwise pass |
| Middleware.Guard | frontend/middleware.ts:3-26 | as written, the sign-in redirect fires exactly for a signed-out path not starting with "/" |
| Middleware.GuardExact | frontend/middleware.ts:3-26 | with "/" matched exactly, a signed-out request is redirected exactly when its path is not public |
| Middleware.PublicIffLeadingSlash | frontend/middleware.ts:5-8 | a path is public exactly when it starts with "/" |
| Middleware.SignedOutDashboardPasses | frontend/middleware.ts:14-16 | as written a signed-out "/dashboard" passes; with the exact match it is sent to sign-in |
| Middleware.DashboardRedirectAgrees | frontend/middleware.ts:19-23 | both versions redirect to the dashboard exactly for a signed-in "/sign-in" or "/sign-up" |
| Models.NewTaskDefaults | backend/models.py:23-24 | a new task is not completed and has no description |
| Models.NormalizedDescription | backend/routes/tasks.py:380 | None exactly for a missing or empty description, otherwise the stripped text |
| Models.NormalizedDescriptionShrinks | backend/models.py:23 | normalization never lengthens a description |
| Tables.TaskTable.constructor | backend/models.py:27-31 | an empty table whose next id is 1 |
| Tables.TaskTable.Find | backend/routes/tasks.py:408-410 | found exactly when the id is stored and owned by the user |
| Tables.TaskTable.Query | backend/routes/tasks.py:351-353 | exactly the stored rows of the owner passing the completion filter, by ascending id |
| Tables.TaskTable.Insert | backend/models.py:27-31 | a new row with the defaults under the next id; no other row changes |
| Tables.TaskTable.Store | backend/routes/tasks.py:420-422 | only that row changes |
| Tables.TaskTable.Remove | backend/routes/tasks.py:450-451 | only that row goes |
| TaskRoutes.AccessError | backend/routes/tasks.py:319-349 | 403 when the caller is not the path user, checked first; then 400 for a malformed id; no error exactly when both pass |
| TaskRoutes.GetTasks | backend/routes/tasks.py:337-354 | after the access checks, exactly the path user's tasks |
| TaskRoutes.CreateTask | backend/routes/tasks.py:359-387 | after the access checks, 400 for a blank title; otherwise one new row with the stripped title and normalized description, owned by the path user; failures change nothing |
| TaskRoutes.AssignAll | backend/routes/tasks.py:416-418 | assignments never change id, owner or timestamps |
| TaskRoutes.AssignAllAppend | backend/routes/tasks.py:416-418 | assigning two batches in turn is assigning them together |
| TaskRoutes.AssignSentFieldsApplies | backend/routes/tasks.py:416-418 | the sent non-null fields are set, strings stripped; unsent fields keep their value |
| TaskRoutes.AssignFields | backend/routes/tasks.py:416-418 | the setattr loop makes the assignments in order |
| TaskRoutes.AssignSentFields | backend/routes/tasks.py:416-418 | the loop over the sent fields applies the update |
| TaskRoutes.UpdateTask | backend/routes/tasks.py:392-423 | after the access checks, 404 "Task not found" unless the path user owns the id; otherwise only that row changes, by the update and the new timestamp |
| TaskRoutes.DeleteTask | backend/routes/tasks.py:428-452 | after the access checks, 404 unless owned; otherwise exactly that row is removed |
| TaskRoutes.Toggled | backend/routes/tasks.py:479-480 | completion negated, timestamp renewed, nothing else changed |
| TaskRoutes.ToggleTwiceRestores | backend/routes/tasks.py:479 | toggling twice restores the row but for its timestamp |
| TaskRoutes.ToggleTaskCompletion | backend/routes/tasks.py:457-484 | after the access checks, 404 unless owned; otherwise only that row is toggled |
| TaskRoutes.RemovedTaskNotListed | backend/routes/tasks.py:450 | a task no longer stored is in no listing |
| TaskRoutes.EmptyDescriptionToolVersusRoute | backend/routes/tasks.py:416-418 | an empty description is stored as None by the tool and as "" by PUT |
| TaskRoutes.BlankDescriptionStoredEmpty | backend/routes/tasks.py:380 | a whitespace-only description is stored as "" on creation |
| TaskRoutes.BlankTitleRouteVersusTool | backend/agent_tools.py:26-30 | a blank title, which the route rejects, is stored by add_task outside the declared bounds |
| TaskList.UniqueTasks | frontend/components/dashboard/task-list.tsx:11-16 | the reduce keeps the first task of each id, in order; ids unique; the same id set |
| TaskList.DedupUnique | frontend/components/dashboard/task-list.tsx:11-16 | de-duplication yields unique ids and keeps the id set |
| TaskList.DedupKeepsFirsts | frontend/components/dashboard/task-list.tsx:11-16 | de-duplication keeps exactly the first occurrence of each id, in order |
| TaskList.DedupOfUnique | frontend/components/dashboard/task-list.tsx:11-16 | a list with unique ids is left as it is |
| TaskList.DedupIdempotent | frontend/components/dashboard/task-list.tsx:11-16 | de-duplicating twice equals once |
| TaskList.WithoutId | frontend/components/dashboard/task-list.tsx:27 | exactly the tasks with other ids remain |
| TaskList.WithoutIdLength | frontend/components/dashboard/task-list.tsx:27 | the filter drops as many tasks as share the id |
| TaskList.CountIdUnique | frontend/components/dashboard/task-list.tsx:27 | with unique ids, an id occurs once or not at all |
| TaskList.FilterKeepsUnique | frontend/components/dashboard/task-list.tsx:27 | filtering keeps ids unique |
| TaskList.WithoutIdIds | frontend/components/dashboard/task-list.tsx:27 | the filter removes exactly that id from the id set |
| TaskList.OnUpdate | frontend/components/dashboard/task-list.tsx:25-30 | the other tasks, then the updated task last |
| TaskList.OnUpdateKeepsList | frontend/components/dashboard/task-list.tsx:25-30 | ids are the old ones plus the updated one; unique ids stay unique; editing a listed task keeps the length |
| TaskList.OnDelete | frontend/components/dashboard/task-list.tsx:33 | exactly the tasks whose id string differs from the deleted id remain |
| TaskList.OnDeleteDropsId | frontend/components/dashboard/task-list.tsx:33 | deleting by a rendered id removes exactly that id |
| TaskList.OnDeleteUnknownId | frontend/components/dashboard/task-list.tsx:33 | an id string no task has leaves the list unchanged |
| Text.StripIsTrimmedInfix | backend/routes/tasks.py:374 | `str.strip` yields the infix without leading and trailing whitespace |
| Text.StripIdempotent | backend/routes/tasks.py:379 | stripping twice equals stripping once |
| Text.StripEmptyIffBlank | backend/routes/tasks.py:374 | a string strips to empty exactly when it is all whitespace |
| Text.IntToStringInjective | frontend/components/dashboard/task-list.tsx:33 | different ids render to different strings |
| Text.ReplaceFirst | backend/db.py:42 | `str.replace(..., 1)`: the first occurrence is replaced, a string without one is unchanged |
| Utf8.EncodeChar | backend/routes/auth.py:29 | one to four bytes, one exactly for ASCII |
| Utf8.DecodeEncodedChar | backend/routes/auth.py:32 | an encoded character decodes back to itself |
| Utf8.ContinuationsDecodeEmpty | backend/routes/auth.py:32 | stray continuation bytes are ignored |
| Utf8.PartialCharDecodesEmpty | backend/routes/auth.py:31-32 | a character cut by the 72-byte limit is dropped |
| Utf8.FittingPrefix | backend/routes/auth.py:30-32 | the longest character prefix whose encoding fits the limit |
| Utf8.FittingPrefixWhole | backend/routes/auth.py:30 | a string that fits is its own fitting prefix |
| Utf8.DecodeEncodedPrefix | backend/routes/auth.py:31-32 | decoding the first bytes with errors ignored gives the fitting prefix |
| Utf8.DecodeEncode | backend/routes/auth.py:29-32 | decoding an encoding gives the string back |

## Left out

- The language-model agent is not part of this model. This covers the client, the system prompt and `Runner.run`. A run is a parameter that returns a final text and a sequence of call and output items, or fails.
- The task-store changes made by the agent's tools during a chat turn are not composed into `Chat.ChatTurn`. The tools are modelled on their own in `AgentTools`.
- JWT signing and signature checking are parameters. The library's own expiry check inside `jwt.decode` is modelled, as `Auth.JwtDecode`.
- AuthRoutes.ExpiryOf: states the expiry the code evidently intends, in UTC epoch seconds, and the tokens of the model carry it. As written, the claim is read from a naive UTC time as local time, so it is off by the host's UTC offset; `AuthRoutes.WrittenExpiry` and the Findings table state that shift.
- Times are whole seconds. The fractional `exp` that `timestamp()` writes, and the library's truncation of it to an integer, are not modelled.
- bcrypt hashing and checking are parameters, and so are UUID generation and the `UUID(...)` format check.
- `json.loads` and `json.dumps` are parameters, and so is the string rendering of a non-string detail.
- `urllib.parse` is a set of parameters. The model works on its parsed components.
- The database engine, sessions, commit, refresh and close are not modelled, nor are async execution and concurrency between requests.
- SQL ordering: rows of a query without `ORDER BY` come back by ascending key. `created_at` is modelled as ascending message id.
- A failing database commit is not modelled on any route.
- AuthRoutes.Me: does not model the 500 "Database error" of a failing user query, because database failures are outside the model.
- AuthRoutes.Register: only the insert of an already taken id is modelled as the 500. Other exceptions inside the `try` are not.
- Dictionary key order in JSON bodies is not modelled. A body is a map.
- Text.Fold: Python's `str.lower` is modelled for ASCII capitals and the Kelvin sign only. These are the characters that can fold to the ASCII names compared in `backend/db.py`.
- The `str(e)` text of a failed agent run is a parameter.
- The frontend's fetch clients, React rendering, cookies and toast notifications are not modelled.
- Revocation is checked by `/auth/me` only, as the code does. `Dependencies.RevokedTokenStillAccepted` states the consequence.
- Pydantic's request validation is not modelled, beyond the `TaskUpdate` shape and the declared bounds. This includes the 1-character minimum of login and register passwords (backend/routes/auth.py:55, 60). The task request schemas of backend/schemas.py:6-18 set no length bound on titles; only the table models declare 1 to 255 characters (backend/models.py:22, 42), which `Models.WithinDeclaredBounds` states.
- The `try`/`except Exception: pass` around the tool-call extraction loop (backend/routes/chat.py:160, 178-179) is not modelled. An exception inside the loop would keep the records built so far. The model assumes no item raises, since `ToolCallInfo` is not part of this model and whether it rejects some parsed arguments cannot be read from the code here.
- `Conversation`, `Message`, `ToolCallInfo`, `ChatRequest`, `ChatResponse` and `MessageResponse`, imported at backend/routes/chat.py:17-18, are not part of this model's sources. Their fields are inferred from how backend/routes/chat.py uses them.
- The frontend middleware's `config.matcher` (frontend/middleware.ts:28-45) is not modelled. It keeps paths whose text after the first slash starts with `api`, `_next/static`, `_next/image` or `favicon.ico`, and prefetch requests, away from the guard. `Middleware.Guard` is stated for the requests that reach it.

## Findings

| source | as written | input that shows it | evidently intended | confidence | as-written member | corrected member |
|---|---|---|---|---|---|---|
| backend/routes/auth.py:80-84 | `datetime.utcnow()` is naive, and `timestamp()` reads a naive time as local time, so on a host ahead of UTC every token's `exp` is early by the offset | a host at UTC+1: a token with the default 15-minute lifetime is expired when issued, and a login token is refused after 23 hours | `exp` is the UTC epoch second of issue plus the lifetime | not executed; needs a host whose local time is not UTC | AuthRoutes.WrittenTokenExpiresEarly | AuthRoutes.IssuedTokenLifetime |
| backend/main.py:30-39 | the HTTP error handler builds a new response without `exc.headers`, so the `WWW-Authenticate: Bearer` challenge of every 401 is lost (section 3.1 of RFC 7235 requires it on a 401) | `InvalidTokenException()`, or any missing or invalid bearer token | the response carries the exception's headers | not executed | ErrorHandlers.InvalidTokenChallengeDropped | ErrorHandlers.InvalidTokenChallengeKept |
| frontend/middleware.ts:5-8 | "/" in the public routes is matched with `startsWith`, so every path beginning with "/" is public and the sign-in redirect never fires | a signed-out request for "/dashboard" passes | "/" public only as an exact match | not executed | Middleware.SignedOutDashboardPasses | Middleware.GuardExact |

# Classroom code-grading system: a Dafny model

This project models the core of a classroom programming-exercise system.
Teachers create classes, hand out invitation codes, and publish programming
tasks with weighted test cases, some of them hidden. Students join classes,
try their code on the visible test cases and submit it. A submission runs
every test case on a Judge0 code-execution server and earns a weighted
percentage score. There is one submission per student and task. Teachers
list and export the grades as Excel or CSV.

The back end is a Django REST service:

- permission classes;
- user, class, task and submission views;
- the Judge0 execution service;
- the task serializers;
- the grade export.

The front end is a React application:

- the HTTP client with its token-refresh interceptor;
- the authentication context;
- the route guard and the route table;
- the error-message normaliser;
- the form logic of the task list, profile and task statistics pages.

Each core file is one Dafny module:

| module | models |
|---|---|
| `Common` | Option, JavaScript/Python string helpers (trim, includes), decimal printing and parsing |
| `ErrorHandler` | `getErrorMessage`, `formatError`, `getFieldName` |
| `ApiClient` | the axios client: bearer header, refresh-once-on-401, parameter building |
| `AuthContext` | `AuthProvider` state and its start-up, login, register and logout |
| `Routing` | `ProtectedRoute`, the route table of `App`, and how a pathname is matched against it (by segment, ignoring case and trailing slashes) |
| `Permissions` | `IsAdmin`, `IsTeacherOrAdmin`, `IsStudent` |
| `UserViews` | role changes, deletion, admin edits and registration of accounts |
| `Invitations` | `InvitationCode.can_use`, `use`, `generate_code` |
| `ClassViews` | class querysets, class creation, invitation creation, joining a class |
| `Judge` | `CodeExecutionService`: language ids, headers, submission, polling, verdict |
| `Tasks` | tasks, test cases and the case order (`order`, then id) |
| `TaskViews` | task querysets and the student task views |
| `TaskSerializers` | `TaskCreateSerializer.create` / `update`, `get_test_case_count` |
| `Export` | the Excel and CSV grade export |
| `SubmissionViews` | `test_code`, `submit_code`, the submission listings, `export_grades` |
| `TaskForm` | the task-creation form of `TaskList.tsx` |
| `ProfilePage` | `Profile.tsx`: cancelling an edit, the password change, the role label |
| `TaskStatistics` | `TaskStatistics.tsx`: display name, time format, row cells |

Stateful parts are classes whose methods update their fields:

- the browser storage and the HTTP client;
- the auth provider;
- an invitation code;
- the class, user, task and submission tables.

Database tables are maps keyed by id.

Oracles are function-typed parameters. Each one stands for something the model cannot see:

- the API server;
- the token-refresh endpoint;
- the Judge0 server;
- the UUID stream;
- the JWT issuer.

Everything else is functions and lemmas.

A failed execution's `details` is a `Judge.Details` value: one of the service's
two fixed configuration hints, or the body of the server's reply.
`Judge.DetailsText` gives the text each one stands for.

`backend/tasks/models.py` declares no `template_code`, `function_name` or
`solution_mode`. The task serializers and the front end read and write these three fields, so the model's
`Tasks.Task` carries them as plain attributes.

## Model

| member | source | states |
|---|---|---|
| ErrorHandler.FieldName | frontend/src/utils/errorHandler.ts:231-253 | a mapped field key gets its Chinese name, which differs from the key; any other key is returned unchanged |
| ErrorHandler.FieldNameAsWrittenShowsPrototype | frontend/src/utils/errorHandler.ts:232-252 | as written, the lookup on an object literal shows Object.prototype member names (`constructor`, `toString`, …) as something other than the key |
| ErrorHandler.FieldNameAgreesOffPrototype | frontend/src/utils/errorHandler.ts:231-253 | on every key that is not an inherited member, the corrected lookup and the code as written agree |
| ErrorHandler.Translate | frontend/src/utils/errorHandler.ts:138-225 | the result of the ordered idiom rules is either the message itself or one of the fixed Chinese translations |
| ErrorHandler.FormatError | frontend/src/utils/errorHandler.ts:133-136 | a string goes through the idiom rules; anything else is printed with `String()` |
| ErrorHandler.AbsentKeyword | frontend/src/utils/errorHandler.ts:139-222 | a keyword that starts with a Latin letter never occurs in a message without Latin letters |
| ErrorHandler.LocalisedPassesThrough | frontend/src/utils/errorHandler.ts:224-225 | a message with no Latin letters (already localised) comes back unchanged |
| ErrorHandler.CredentialsShadowNoActiveAccount | frontend/src/utils/errorHandler.ts:178-199 | a message that mentions "credentials" gets the expired-session text, never "账号不存在或未激活" |
| ErrorHandler.ErrorText | frontend/src/utils/errorHandler.ts:21 | `errorMessage` is a string or a truthy value: the string body, a truthy `detail` or `error`, else "" |
| ErrorHandler.StatusFallback | frontend/src/utils/errorHandler.ts:45-62 | a body-less response: 403, 404, ≥500 and other ≥400 statuses map to their fixed strings, any other status to the default |
| ErrorHandler.CollectFieldErrors | frontend/src/utils/errorHandler.ts:66-95 | the key loop collects exactly the field-level lines, in key order, or throws exactly when some key holds `null` |
| ErrorHandler.GetErrorMessage | frontend/src/utils/errorHandler.ts:7-128 | the method that follows the source's control flow returns the value of the specification function |
| ErrorHandler.NoResponseUsesErrorText | frontend/src/utils/errorHandler.ts:9-17 | without a response: the error's message when it is non-empty, else its `toString()` text, and never a status string |
| ErrorHandler.UnauthorizedShowsTwoStrings | frontend/src/utils/errorHandler.ts:24-42 | a 401 gives "登录已过期，请重新登录" or "用户名或密码错误", unless `detail` or `error` is a truthy value that is neither a string nor an array and no `token_expired` flag is set; then the `includes` call throws a TypeError |
| ErrorHandler.WrongCredentialsExactly | frontend/src/utils/errorHandler.ts:26-39 | a 401 gives "用户名或密码错误" exactly when no expiry hint matched, the URL is the login endpoint and a credential hint matched |
| ErrorHandler.TokenExpiredFlagWins | frontend/src/utils/errorHandler.ts:26-33 | a 401 body with a truthy `token_expired` gives the expired-session text |
| ErrorHandler.FalsyBodyUsesStatus | frontend/src/utils/errorHandler.ts:45-62 | a non-401 response with a falsy body gives the status string |
| ErrorHandler.ContributionReported | frontend/src/utils/errorHandler.ts:70-99 | every line one key contributes appears in the joined message |
| ErrorHandler.StringFieldReported | frontend/src/utils/errorHandler.ts:85-87 | a string-valued field appears as "<field name>: <message>", untranslated |
| ErrorHandler.ArrayFieldReported | frontend/src/utils/errorHandler.ts:79-83 | every element of an array-valued field appears under the field's name |
| ErrorHandler.NullFieldThrows | frontend/src/utils/errorHandler.ts:89-93 | a `null` field value makes the normaliser throw, whatever the other keys hold |
| ErrorHandler.FieldErrorsWin | frontend/src/utils/errorHandler.ts:97-100 | when field lines exist, they are the message, joined with "；", and `detail`/`error` are ignored |
| ErrorHandler.DetailBeforeError | frontend/src/utils/errorHandler.ts:102-109 | with no field lines, a truthy `detail` is formatted in preference to `error` |
| ErrorHandler.ArrayBody | frontend/src/utils/errorHandler.ts:122-127 | an array body is formatted element by element and joined; an empty array gives the default |
| ApiClient.Authorize | frontend/src/services/api.ts:24-31 | a stored, non-empty access token becomes `Bearer <token>`; otherwise the header is left alone; verb, path, body and retry flag are kept |
| ApiClient.Client.Send | frontend/src/services/api.ts:24-31 | the request leaves authorised, the reply is the server's answer to it, and it is logged as sent |
| ApiClient.Client.Request | frontend/src/services/api.ts:38-64 | the storage, location, traffic and outcome after one call are those of the dispatch function |
| ApiClient.AtMostOneRefresh | frontend/src/services/api.ts:42-43 | one call first sends the request as authorised, sends it at most twice in all and refreshes at most once, and a second send always follows the refresh |
| ApiClient.SettledUntouched | frontend/src/services/api.ts:42-62 | a reply other than 401, or any reply to a retried request, settles the call after exactly one send; storage and location are unchanged |
| ApiClient.NoRefreshTokenRejects | frontend/src/services/api.ts:45-62 | a first 401 with no refresh token is rejected as it is after exactly one send: nothing cleared, no navigation |
| ApiClient.RefreshFailureWipes | frontend/src/services/api.ts:55-59 | a failed refresh removes both tokens, goes to /login and rejects with the refresh error, after one send and one refresh call |
| ApiClient.RenewedRetriesOnce | frontend/src/services/api.ts:47-53 | a successful refresh stores the new access token; the traffic is exactly the first send, the refresh call and a re-send of the original request with the new bearer and the retry flag set; that re-send's outcome is final |
| ApiClient.LoginNotExempt | frontend/src/services/api.ts:42-47 | a first 401 from the login endpoint still triggers a refresh when a refresh token is stored |
| ApiClient.IdQuery | frontend/src/services/api.ts:129 | the id parameter is present exactly when the id is truthy, and it parses back to the same id (the same test recurs at lines 185 and 196) |
| ApiClient.InvitationMaxUses | frontend/src/services/api.ts:116-118 | `max_uses` is the given limit when truthy, else 0 |
| ApiClient.ExportQuery | frontend/src/services/api.ts:201-209 | `format` is always sent (default "excel"); `class_id`/`task_id` only when truthy, and they parse back to the ids; the response type is blob |
| AuthContext.LoginBody | frontend/src/services/api.ts:68-74 | the login body holds exactly the username and the password |
| AuthContext.RegisterBody | frontend/src/services/api.ts:76-87 | the register body holds the five required fields, and `first_name` and `last_name` exactly when the form has them |
| AuthContext.AuthProvider.constructor | frontend/src/context/AuthContext.tsx:23-24 | the provider starts with no user and `loading` true |
| AuthContext.AuthProvider.InitAuth | frontend/src/context/AuthContext.tsx:26-39 | without a token, no profile call, no user and no navigation; a profile success sets the user; a failure removes both tokens; loading ends in every case |
| AuthContext.AuthProvider.SignIn | frontend/src/context/AuthContext.tsx:43-65 | the first call sent posts the given body; on success both tokens and the user come from the response; if the call throws, nothing is written; the client's traffic and location are those of the call |
| AuthContext.AuthProvider.Login | frontend/src/context/AuthContext.tsx:43-53 | login posts exactly the username and password to /auth/login/, and has the sign-in post-state, traffic and location |
| AuthContext.AuthProvider.Register | frontend/src/context/AuthContext.tsx:55-71 | register posts the form's fields to /auth/register/, and has the same post-state, traffic and location as login |
| AuthContext.AuthProvider.Logout | frontend/src/context/AuthContext.tsx:73-77 | both tokens removed and the user cleared, with no API call |
| Routing.Gate | frontend/src/components/Layout/ProtectedRoute.tsx:10-26 | loading shows the placeholder; otherwise no user goes to /login, a wrong role to /dashboard, and a fitting user sees the page |
| Routing.RouteKeysDistinct | frontend/src/App.tsx:23-115 | no two routes share their length and first literal segment |
| Routing.RoutesDisjoint | frontend/src/App.tsx:23-115 | no path fits two routes, so the table's order is irrelevant |
| Routing.Visit | frontend/src/App.tsx:23-115 | a path renders nothing exactly when no route fits it; a literal segment fits without regard to case |
| Routing.VisitFrom | frontend/src/App.tsx:23-115 | the scan of the table from position k finds a route that fits, if one does |
| Routing.VisitShowsFittingRoute | frontend/src/App.tsx:23-115 | a path renders the view of the route that fits it |
| Routing.LiteralsLowerCase | frontend/src/App.tsx:23-115 | every literal of the route table is its own lower case, so comparing the lower-cased segment with it is a case-insensitive comparison |
| Routing.VisitFromIgnoresCase | frontend/src/App.tsx:23-115 | from any table position, two paths whose segments agree once lower-cased find the same view |
| Routing.VisitIgnoresCase | frontend/src/App.tsx:23-115 | paths whose segments agree once lower-cased render the same view, since no route asks for case-sensitive matching |
| Routing.TrimSlashes | frontend/src/App.tsx:23-115 | the pathname is cut before its trailing slashes only: what is dropped is all slashes, and what remains does not end in one |
| Routing.Split | frontend/src/App.tsx:23-115 | splitting at the slashes gives at least one piece, and no piece holds a slash |
| Routing.SplitJoins | frontend/src/App.tsx:23-115 | joining the pieces with slashes gives the text back |
| Routing.SplitWithoutSlash | frontend/src/App.tsx:23-115 | a text without a slash is a single piece |
| Routing.Segments | frontend/src/App.tsx:23-115 | a pathname's segments hold no slash, are empty exactly for an all-slash pathname, and otherwise joined with slashes after a leading one give the pathname without its trailing slashes |
| Routing.TrailingSlashIgnored | frontend/src/App.tsx:23-115 | a trailing slash does not change the segments a pathname is matched by |
| Routing.SignInPagesOpen | frontend/src/App.tsx:24-25 | /login and /register render for anyone, even while loading |
| Routing.RootForwards | frontend/src/App.tsx:114 | / forwards to /dashboard |
| Routing.TeacherPages | frontend/src/App.tsx:34-57 | the class pages, /tasks and a class's submissions pass the guard only for teachers (the submissions page at lines 90-97 too) |
| Routing.StudentPages | frontend/src/App.tsx:58-81 | /my-classes, /my-tasks and the editor pass the guard only for students |
| Routing.AdminPage | frontend/src/App.tsx:106-113 | /admin passes the guard only for admins |
| Routing.AdminInAnyCase | frontend/src/App.tsx:106-113 | "/ADMIN/" is the admin page: it renders behind the admin guard whatever the case of its letters, with or without a trailing slash |
| Routing.SignedInPages | frontend/src/App.tsx:26-33 | the dashboard and the submission pages need a signed-in user, of any role (also lines 82-89 and 98-105) |
| Permissions.Denial | backend/users/permissions.py:7-26 | a permission that allows gives no answer; a refusal is 401 for an anonymous request and 403 otherwise (this status split is the REST framework's `permission_denied`, which is not part of this model) |
| Permissions.StudentOrStaff | backend/users/permissions.py:11-26 | an authenticated account with a valid role passes exactly one of IsStudent and IsTeacherOrAdmin |
| Permissions.AdminIsStaff | backend/users/permissions.py:4-19 | every request that passes IsAdmin passes IsTeacherOrAdmin |
| Permissions.OthersDenied | backend/users/permissions.py:7-26 | an anonymous request, or a role outside the three, passes none of the checks |
| UserViews.AdminIdsAfterRoleChange | backend/users/views.py:73-82 | setting one role moves that one id into or out of the admin set, and no other id |
| UserViews.AdminIdsAfterRemoval | backend/users/views.py:125-131 | deleting a non-admin leaves the admin set unchanged |
| UserViews.TwoAdminsPresent | backend/users/views.py:65-75 | an admin requester changing another admin means at least two admins, so the last-admin guard cannot fire |
| UserViews.UserDirectory.UpdateUserRole | backend/users/views.py:55-85 | the error ladder: 404, then self, then invalid role, then last admin; on success only the target's role changes, and an admin remains |
| UserViews.UserDirectory.DeleteUser | backend/users/views.py:111-132 | the error ladder: 404, then self, then admin; on success exactly the target is removed and the admin count is unchanged |
| UserViews.UserDirectory.UpdateUser | backend/users/views.py:88-108 | 404, then validation, then a request naming `role` refused without saving; otherwise the given editable fields are written |
| UserViews.UserDirectory.Register | backend/users/views.py:17-35 | invalid fields or differing passwords give 400 and store nothing; otherwise a new account (role defaulting to student) is stored and answered with 201 and its token pair (the password check is backend/users/serializers.py lines 32-34) |
| UserViews.Patch | backend/users/views.py:97-107 | a partial update writes exactly the editable keys present and keeps the rest |
| UserViews.RoleChangeKeepsAnAdmin | backend/users/views.py:72-79 | a role change that passes the guard never leaves a table that had admins without one |
| Invitations.InvitationCode.constructor | backend/classes/models.py:49-52 | a new code is active, unused and without expiry, with the given limit |
| Invitations.InvitationCode.CanUse | backend/classes/models.py:71-79 | inactive, then expired (strictly before now), then exhausted (positive limit reached), each with its message; otherwise usable |
| Invitations.InvitationCode.Use | backend/classes/models.py:81-88 | the count rises by one exactly when the code is usable; nothing else changes |
| Invitations.UnlimitedNeverExhausted | backend/classes/models.py:77 | with limit 0 the count never blocks the code (the default of 0 is line 50) |
| Invitations.ExpiryIsStrict | backend/classes/models.py:75 | no expiry never expires, and a code expiring exactly now is still usable |
| Invitations.UseStaysWithinLimit | backend/classes/models.py:77-88 | a usable code with a positive limit stays within it after one use |
| Invitations.Candidate | backend/classes/models.py:67 | a candidate has eight characters, none of them a lower-case letter |
| Invitations.FirstFreshCode | backend/classes/models.py:64-69 | a found code is an untaken eight-character candidate of a drawn UUID; none is found exactly when every candidate is taken |
| Invitations.GenerateCode | backend/classes/models.py:64-69 | the draw loop returns the first fresh candidate |
| ClassViews.CleanCode | backend/classes/serializers.py:62-65 | a code is accepted only when present, trimmed, non-blank and at most 20 characters, and every such code is accepted |
| ClassViews.CleanField | backend/classes/models.py:12 | a required text field is accepted only when present, non-blank once trimmed and within its maximum length, and its stored value is the trimmed text |
| ClassViews.CleanName | backend/classes/models.py:12 | a class name is accepted only when present, trimmed, non-blank and at most 100 characters, and every such name is accepted |
| ClassViews.ClassRegistry.ClassQueryset | backend/classes/views.py:23-27 | an admin sees all classes, anyone else exactly the classes they teach (also lines 39-43) |
| ClassViews.ClassRegistry.MyClasses | backend/classes/views.py:106-120 | teachers and admins get the classes they teach, students the classes they joined |
| ClassViews.ClassRegistry.CreateClass | backend/classes/views.py:17-30 | non-staff are refused and nothing changes; a missing, blank or over-long name gives 400 and nothing changes; otherwise 201 and a new class under a fresh id, with the trimmed name and description, taught by the requester, with no students, the other classes unchanged |
| ClassViews.ClassRegistry.AddClass | backend/classes/views.py:29-30 | the new class is stored under an id no class had, and nothing else changes |
| ClassViews.ClassRegistry.CreateInvitationCode | backend/classes/views.py:46-68 | 404 for a missing class, 403 for a teacher of another class; otherwise a new active code with the given limit; existing codes unchanged |
| ClassViews.ClassRegistry.JoinClass | backend/classes/views.py:71-103 | students only, then a valid, existing, usable code for a class not yet joined; on success exactly that class gains the student and the code one use; on failure nothing changes |
| Judge.LanguageId | backend/submissions/services.py:11-14 | the lower-cased language maps to 62 (java) or 71 (python), and nothing else is supported (used at line 62) |
| Judge.Headers | backend/submissions/services.py:23-37 | always the JSON content type; RapidAPI mode adds key and host, or fails without a key |
| Judge.BuildPayload | backend/submissions/services.py:70-79 | the body carries code, language id, stdin, limits 2 s and 128000 KB, and the expected output only when non-empty |
| Judge.ParseResult | backend/submissions/services.py:174-203 | outputs are compared after a right-strip; without an expected output a run passes when stderr and compiler output are empty |
| Judge.VerdictIgnoresTrailingSpace | backend/submissions/services.py:183-189 | padding either output with trailing white space never changes the verdict |
| Judge.PollFrom | backend/submissions/services.py:125-161 | the polling from attempt k makes at most 30 − k requests |
| Judge.DetailsText | backend/submissions/services.py:84-112 | a missing RapidAPI key and a 401 carry their fixed configuration hints; any other rejected submission carries the reply body |
| Judge.Execute | backend/submissions/services.py:39-172 | execute_code makes at most 31 HTTP requests |
| Judge.ExecuteCode | backend/submissions/services.py:39-172 | the method returns the specification's result and request count |
| Judge.Poll | backend/submissions/services.py:121-161 | the loop's result and request count are those of polling from attempt 0 |
| Judge.FailsBeforeRequests | backend/submissions/services.py:62-90 | an unsupported language, or RapidAPI without a key, fails with no request made |
| Judge.PendingTimesOut | backend/submissions/services.py:125-161 | if every status reply is pending, the loop ends after exactly 30 requests with "执行超时" |
| Judge.UnlistedStatusIsPending | backend/submissions/services.py:143-156 | Judge0 statuses 13 and 14 are final on the server but keep the loop polling |
| Judge.CompletedAfterPending | backend/submissions/services.py:143-145 | a completed reply after k pending ones gives the parsed verdict after k + 1 requests |
| Judge.CompletedFrom | backend/submissions/services.py:125-156 | from attempt i, pending replies up to attempt k and a completed one at k give the parsed verdict after k − i + 1 requests |
| Judge.TestCode | backend/submissions/services.py:205-237 | one run per case, in order, tagged with the case's id and input |
| Tasks.LanguageDisplay | backend/tasks/models.py:11-14 | "java" → "Java", "python" → "Python", any other value unchanged |
| Tasks.Insert | backend/tasks/models.py:70 | inserting keeps the same cases plus the new one |
| Tasks.InsertKeepsOrder | backend/tasks/models.py:70 | inserting into a list in case order keeps it in case order |
| Tasks.ByOrder | backend/tasks/models.py:70 | the related cases read in case order (`order`, then id): sorted and a permutation of the stored cases |
| Tasks.Visible | backend/tasks/views.py:100-103 | the filtered list is no longer than the input and holds no hidden case |
| Tasks.VisibleOfConcat | backend/tasks/views.py:100-103 | filtering distributes over concatenation |
| Tasks.VisibleMembers | backend/tasks/views.py:100-103 | a case is kept exactly when it is in the list and not hidden |
| Tasks.VisibleCounts | backend/tasks/views.py:100-103 | each visible case is kept as often as it occurs, each hidden one dropped |
| Tasks.VisibleKeepsOrder | backend/tasks/views.py:100-103 | filtering a list in case order keeps it in case order |
| TaskViews.TaskListQueryset | backend/tasks/views.py:27-40 | a task is listed exactly when it passes the optional class filter and the requester is an admin or teaches its class |
| TaskViews.TaskDetailQueryset | backend/tasks/views.py:52-56 | an admin can open every task, anyone else exactly the tasks of classes they teach |
| TaskViews.ListedTasksOpen | backend/tasks/views.py:27-56 | every listed task can be opened; without a class filter the two querysets coincide |
| TaskViews.StudentTaskList | backend/tasks/views.py:59-75 | 401 / 403 for non-students; a student gets exactly the active tasks of the classes they joined |
| TaskViews.StudentTaskDetail | backend/tasks/views.py:78-105 | students only, then 404 for a missing or inactive task, then 403 outside its class; otherwise the task with its visible cases in case order |
| TaskViews.StudentSeesVisibleCases | backend/tasks/views.py:96-103 | the student sees no hidden case, each visible case as often as stored, in case order, and every other attribute as stored |
| TaskSerializers.Materialize | backend/tasks/models.py:59-63 | a stored case from validated data takes the defaults: not hidden, order 0, weight 1.0 |
| TaskSerializers.Materialized | backend/tasks/serializers.py:87-88 | one case per element, in order, with consecutive ids |
| TaskSerializers.Read | backend/tasks/serializers.py:77-81 | reading attribute f of a task gives an assignment to f |
| TaskSerializers.SetAttr | backend/tasks/serializers.py:95-96 | `setattr` changes exactly the named attribute, and never the cases or the creator |
| TaskSerializers.Apply | backend/tasks/serializers.py:95-97 | assigning attributes never touches the cases or the creator |
| TaskSerializers.LastFor | backend/tasks/serializers.py:95-96 | the last assignment to f, if any, is one of the edits; none exactly when no edit names f |
| TaskSerializers.LastWriteWins | backend/tasks/serializers.py:95-96 | after the loop, each attribute holds its last assigned value, or its old value if never assigned |
| TaskSerializers.TaskStore.CreateCases | backend/tasks/serializers.py:87-88 | one stored case per element, with fresh consecutive ids; the tasks are untouched (also lines 103-104) |
| TaskSerializers.TaskStore.Create | backend/tasks/serializers.py:83-90 | a new task with the requester as creator and one case per element (none by default); its case count is the number sent (the creator is set in backend/tasks/views.py lines 42-43) |
| TaskSerializers.TaskStore.Update | backend/tasks/serializers.py:92-106 | the attributes are assigned in order; the cases are replaced exactly when `test_cases` was sent (even empty); other tasks unchanged |
| TaskSerializers.TestCaseCount | backend/tasks/serializers.py:45-49 | the count is the number of the task's cases |
| Export.Filtered | backend/submissions/export.py:32-36 | every exported record passes the truthy class and task filters (the CSV path repeats it at lines 126-130) |
| Export.FilteredMembers | backend/submissions/export.py:32-36 | a record is exported exactly when it is stored and matches each truthy filter (the CSV path repeats it at lines 126-130) |
| Export.ExcelFilename | backend/submissions/export.py:98-102 | the task id wins over the class id, else the plain name |
| Export.SamePrecedence | backend/submissions/export.py:98-102 | the CSV's overwrite and the Excel's if/elif choose the same stem (against lines 153-157) |
| Export.RowOf | backend/submissions/export.py:70-80 | a row shows username, email, class name, task title, language display name, score and test count |
| Export.BuildRows | backend/submissions/export.py:68-80 | one row per record, in order |
| Export.ExcelTable | backend/submissions/export.py:38-47 | the Excel sheet always has the nine headers, even with no rows (written at lines 83-88) |
| Export.CsvTableAsWritten | backend/submissions/export.py:133-161 | as written, the CSV frame has no header when there are no rows |
| Export.EmptyCsvLosesHeader | backend/submissions/export.py:147-161 | an empty export gives an Excel sheet with headers and a CSV file without them (against the Excel headers at lines 39-44) |
| Export.CsvTable | backend/submissions/export.py:133-161 | the corrected CSV is the Excel table: always the nine headers, and the rows given |
| Export.FormatsAgree | backend/submissions/export.py:147-161 | corrected, both formats carry the same table; as written they differ only when nothing is exported (against the Excel sheet at lines 83-88) |
| Export.ExportSubmissions | backend/submissions/export.py:14-163 | the file name of the format, the nine headers and one row per filtered record, in order |
| SubmissionViews.EntryOf | backend/submissions/views.py:71-76 | a trial entry keeps the case's id and input; a completed run's expected output replaces the stored one |
| SubmissionViews.ErrorMessageOf | backend/submissions/views.py:164 | the first non-empty of stderr, compiler output and error, else "" |
| SubmissionViews.ResultOf | backend/submissions/views.py:155-166 | a stored result row holds the case's id, the verdict, the output and the error message |
| SubmissionViews.PassedCount | backend/submissions/views.py:90-91 | the passed count never exceeds the total count |
| SubmissionViews.AllPassIffFullCount | backend/submissions/views.py:90-91 | every entry passes exactly when the passed count equals the total |
| SubmissionViews.Verdicts | backend/submissions/views.py:147-158 | one verdict per case, in order |
| SubmissionViews.ScoreBounds | backend/submissions/views.py:170-174 | with non-negative weights the score is between 0 and 100; all cases passed with positive total gives 100; none passed gives 0 |
| SubmissionViews.RunCase | backend/submissions/views.py:148-153 | one call of the execution service with the case's input and expected output |
| SubmissionViews.TryCases | backend/submissions/views.py:62-76 | one entry per case, in order |
| SubmissionViews.GradeCases | backend/submissions/views.py:143-174 | one result row per case in order, the total weight, and the weight of the passed cases |
| SubmissionViews.ResultsOf | backend/submissions/views.py:143-166 | one result row per case, in order |
| SubmissionViews.AttemptCount | backend/submissions/views.py:177 | the count is at most the number of recorded attempts |
| SubmissionViews.AttemptCountAfterTrial | backend/submissions/views.py:81-87 | recording a trial raises exactly that student's count on that task by one (the count is line 177) |
| SubmissionViews.Grading.Selection | backend/submissions/views.py:53 | the cases run are in case order; submit_code runs every stored case, test_code no hidden one (and line 134) |
| SubmissionViews.Grading.Refusal | backend/submissions/views.py:27-56 | the guard ladder: 401, non-student 403, 404, not a member 403, invalid body 400, wrong language 400, no cases 400 (repeated at lines 108-137) |
| SubmissionViews.Grading.TestCode | backend/submissions/views.py:21-99 | after the guards, the visible cases run in order, exactly one attempt is recorded, and the passed and total counts are reported |
| SubmissionViews.Grading.SubmitCode | backend/submissions/views.py:102-210 | after the guards, every case runs, the weighted score is computed and the single submission of the pair is created (201) or replaced (200) with fresh results |
| SubmissionViews.Grading.Upsert | backend/submissions/views.py:180-204 | an existing submission of the pair is overwritten (200), otherwise a new one is made (201); the uniqueness invariant holds |
| SubmissionViews.Grading.MySubmissions | backend/submissions/views.py:213-233 | students see their own, teachers those of classes they teach, all others everything; then the task filter |
| SubmissionViews.Grading.SubmissionDetail | backend/submissions/views.py:236-254 | 404, then a student only their own and a teacher only their classes' (403 "无权限"); admins see any |
| SubmissionViews.Grading.ClassSubmissions | backend/submissions/views.py:257-269 | teachers and admins get every submission of the class, whoever teaches it; then the task filter |
| SubmissionViews.Grading.ExportGrades | backend/submissions/views.py:272-302 | non-staff are refused; otherwise the file of the parsed format, named after the parsed ids, with the nine headers and, in order, the row of each record matching them |
| SubmissionViews.OneSubmissionPerPair | backend/submissions/views.py:180-190 | at most one submission exists per task and student |
| SubmissionViews.ParseId | backend/submissions/views.py:280-289 | an absent or empty parameter gives none; otherwise the decimal parse, which is none for text `int` refuses |
| SubmissionViews.ExportFormat | backend/submissions/views.py:291-295 | "csv" selects CSV; anything else, and no value, selects Excel (the default is line 278) |
| SubmissionViews.ExportIdRoundTrip | backend/submissions/views.py:276-289 | the id the client sends is the id the view filters by; an omitted id reads as none (the client side is frontend/src/services/api.ts lines 201-204) |
| SubmissionViews.ExportFormatDefault | backend/submissions/views.py:278 | the client's default "excel" and a missing format select the same file kind (the client default is frontend/src/services/api.ts lines 201-202) |
| TaskForm.AddTestCase | frontend/src/pages/TaskList.tsx:51-62 | one blank case appended with `order` the old length; the others unchanged |
| TaskForm.RemoveTestCase | frontend/src/pages/TaskList.tsx:64-66 | exactly the case at the index is removed, the rest keep their order; an index out of range changes nothing |
| TaskForm.RemoveUndoesAdd | frontend/src/pages/TaskList.tsx:51-66 | removing the case just added gives the list back |
| TaskForm.ChangeTestCase | frontend/src/pages/TaskList.tsx:68-72 | only the named field of the indexed case changes |
| TaskForm.WeightFromInput | frontend/src/pages/TaskList.tsx:652-656 | the weight box stores the parsed number, or 1.0 when it is unparsable or zero |
| TaskForm.ValidCases | frontend/src/pages/TaskList.tsx:82-84 | every kept case has non-blank trimmed input and output |
| TaskForm.ValidCasesMembers | frontend/src/pages/TaskList.tsx:82-88 | a case is kept exactly when it is valid; the list is empty exactly when no case is valid |
| TaskForm.CheckCreate | frontend/src/pages/TaskList.tsx:76-108 | no class, then no valid case, then function mode without a name, each with its message; otherwise the request is sent with the form's fields and class |
| TaskForm.SentCasesAreClean | frontend/src/pages/TaskList.tsx:97-107 | the sent cases are the valid ones in order, trimmed, numbered 0..n−1, with their hidden flag and a non-zero weight |
| TaskForm.StoredCasesKeepPositions | frontend/src/pages/TaskList.tsx:101-107 | stored by the server, the sent cases keep their positions as `order`, a non-zero weight and their hidden flag (stored by backend/tasks/serializers.py lines 87-88) |
| TaskForm.AfterCreate | frontend/src/pages/TaskList.tsx:109-122 | after a success the form is closed and back to its initial values, with no class; after a failure nothing changes |
| ProfilePage.CancelEdit | frontend/src/pages/Profile.tsx:60-71 | edit mode ends and both messages clear; the form is refilled from the loaded profile with missing fields as "", or kept when none is loaded |
| ProfilePage.ChangePassword | frontend/src/pages/Profile.tsx:90-120 | mismatch first, then length below 8, each with its message and no request; otherwise the request is made, and success empties the form while failure shows the message |
| ProfilePage.RefusedIgnoresReply | frontend/src/pages/Profile.tsx:95-103 | a submission the checks stop does not depend on the server's reply, and keeps the form |
| ProfilePage.RoleDisplay | frontend/src/pages/Profile.tsx:122-133 | admin/teacher/student map to 管理员/教师/学生; any other text is unchanged |
| TaskStatistics.StudentName | frontend/src/pages/TaskStatistics.tsx:62-65 | the trimmed "first last" when it is not blank, else the username |
| TaskStatistics.BlankJoin | frontend/src/pages/TaskStatistics.tsx:63 | "first last" is blank exactly when both parts are |
| TaskStatistics.NameFallback | frontend/src/pages/TaskStatistics.tsx:62-65 | the username is shown when both name parts are blank; otherwise the shown name is not blank |
| TaskStatistics.ClockOf | frontend/src/pages/TaskStatistics.tsx:70-78 | minutes and seconds below 60 that recompose, with the hours, to the duration; no hours below 3600 |
| TaskStatistics.ClockUnique | frontend/src/pages/TaskStatistics.tsx:70-78 | any split with minutes and seconds below 60 that adds up to the duration is that one |
| TaskStatistics.FormatTime | frontend/src/pages/TaskStatistics.tsx:67-80 | under a minute "s.0秒"; under an hour the minutes and seconds; otherwise hours, minutes and seconds, each from that decomposition |
| TaskStatistics.RowCells | frontend/src/pages/TaskStatistics.tsx:470-520 | score and test count shown exactly when submitted; the language also needs a non-empty language; the time also a positive total time |

## Left out

- Transport and browser I/O are left out: axios itself, `localStorage` persistence, `window.location`, clipboard, `alert`/`confirm`, the Monaco editor, JSX and styling. The storage is two optional strings, the network is oracle parameters.
- Time is a parameter or left out:
  - `setTimeout` delays (after login, after a password change);
  - `time.sleep` between polls;
  - `time.time()` totals;
  - `submitted_at`, `created_at` and the deadline comparison.
- Concurrency is not modelled. Two simultaneous submissions of one pair are serialised, and the database index is the `index` map.
- Floating point is not modelled:
  - weights and scores are reals;
  - `execution_time`, `time_used`, `memory_used` and `total_time` are not modelled (the statistics page's time is whole seconds);
  - the two-decimal and one-decimal formatting is not modelled.
- Judge.Execute: the generic "执行异常" exception path (any other exception inside the try block) is not modelled. Network exceptions of the two requests are modelled.
- Judge.ParseResult: Python's `rstrip` and JavaScript's `trim` remove all Unicode white space. `Common.IsSpace` knows only the six ASCII white-space characters.
- TaskForm.CheckCreate: the selected class is `None` while the selector holds "". The model does not follow `Number()` on other texts.
- ProfilePage.ChangePassword: the length check counts characters. JavaScript's `.length` counts UTF-16 code units.
- SubmissionViews.ParseId: Python's `int()` also accepts underscores between digits and non-ASCII digits. The model accepts only an optional sign and ASCII digits, surrounded by white space.
- SubmissionViews.Grading.MySubmissions: a non-numeric `task_id` filter makes the query raise a server error. Filters are modelled as already-parsed `Option<int>`.
- SubmissionViews.Grading.ClassSubmissions: the same non-numeric `task_id` case applies and is not modelled.
- A JSON `null` and a missing key are one case (`None`) wherever the source reads them with `.get(key, default)`, except in the error normaliser, which keeps `null` apart.
- Serializer field validation (types, lengths, choices) is left out in the user views. There it is a boolean parameter `valid`, and the model does not re-derive it. The class name and the invitation code are checked concretely (`ClassViews.CleanName`, `ClassViews.CleanCode`).
- ClassViews.ClassRegistry.CreateClass: a 400 answer's body (the serializer's per-field error lists) is not modelled, only its status. The trimming uses `Common.IsSpace`, the six ASCII white-space characters; Python's `str.strip` removes all Unicode white space.
- Routing.Segments: the router percent-decodes the pathname before matching it. The model matches the pathname as given. A pathname is a location's, so it always starts with a slash.
- The label of the statistics page's language cell ("Java" for "java", "Python" for anything else) is modelled. The colours of that cell are not.
- Django's password validators are not part of this model. Neither is the JWT issuing inside the login view: tokens come from an oracle.
- ErrorHandler.GetErrorMessage: it is built on the corrected `FieldName`, as is `ErrorHandler.ErrorMessage`. For a 400 body whose key is an `Object.prototype` member such as `constructor`, the source as written shows that member's text; the model shows the key itself (first row of the Findings table).
- Export.ExportSubmissions: its CSV branch is built on the corrected `CsvTable`. When no submission matches the filters, the source as written writes a CSV with no header line; the model writes the nine headers (second row of the Findings table).
- SubmissionViews.Grading.ExportGrades: it inherits the corrected CSV header from `Export.ExportSubmissions`. The records it exports are a parameter, and they are not derived from the `Grading` state. The query that joins submissions with their student, task and class (`select_related` plus the class and task filters) is not modelled; only the filtering and the rows built from the joined records are.
- The test-case order: the source reads cases with `order_by("order")` and leaves equal `order` values to the database. The model picks one tie order, by id (`Tasks.CaseBefore`).
- TaskSerializers.TaskStore.Update: replacing a task's test cases also deletes their stored test results in the source, through the CASCADE on the result's foreign key. The model's task store holds no results, so that deletion is not modelled.
- SubmissionViews.OutputOf: when the judge's reply carries `"stdout": null` for a failed run, the source stores `NULL` as the result's output. The model stores "".

## Findings

| source | as written | input that shows it | evidently intended | confidence | as-written member | corrected member |
|---|---|---|---|---|---|---|
| frontend/src/utils/errorHandler.ts:232-252 | `fieldMap[field] \|\| field` on an object literal also finds Object.prototype members | a 400 body `{"constructor": ["..."]}` shows "function Object() { [native code] }: ..." instead of "constructor: ..." | keys that are not in the table are shown as themselves | not executed | ErrorHandler.FieldNameAsWrittenShowsPrototype | ErrorHandler.FieldName |
| backend/submissions/export.py:133-161 | the CSV frame is built from the row dictionaries alone, so with no rows it has no columns | an export whose filters match no submission writes a CSV without a header line, while the Excel branch writes the nine headers | an empty CSV export carries the same nine column headers as the Excel one | not executed | Export.EmptyCsvLosesHeader | Export.CsvTable |

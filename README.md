# IssueHub core in Dafny

IssueHub is an issue tracker. It has a FastAPI backend over five tables (users, projects, project memberships, issues, comments) and a React frontend. This project models two parts of it and proves properties of the model:

- **The backend's authorization and table rules.** The tables are a `Db.Database` object with one sequence per table and one id counter per table. Its invariant `Valid()` covers:
  - increasing ids;
  - unique emails and project keys;
  - no duplicate (project, user) memberships;
  - foreign keys.

  Read endpoints are functions. Endpoints that insert or update rows are methods, and each states:
  - the error it returns, with status and message, in the source's order of checks;
  - the exact change to every table, and that `Valid()` still holds.

  The `setattr` loops of the two update endpoints are loops proved equal to a field-wise merge.
- **The frontend's client state machines.** These are:
  - the shared axios client, with its two interceptors;
  - the session store;
  - the issue list, issue detail, project detail and sign-up pages.

  `localStorage`, `window.location` and the log of sent requests are fields of `Client.Browser` and `Client.Api`. The server's answer to each request is a `Reply<T>` input, either success or failure. Every handler states:
  - the requests it sends;
  - what it changes on success and on failure.

`Consistency` connects the two parts:

- the edit button on the issue page against the server's update rule;
- the case-insensitive assignee-selector test against the exact-match permission test;
- the assignee the page keeps locally against the one the server stores;
- the two status colourings;
- the issue list's pages against `read_issues`: for one fixed order of the rows, paging through all pages shows each visible issue exactly once.

Modules follow the source files:

| module | source |
|---|---|
| `Models`, `Schemas` | `backend/app/models`, `backend/app/schemas` |
| `Db`, `Query` | the tables and the SQLAlchemy `first`, `filter`, `offset` and `limit` idioms |
| `Deps` | `backend/app/api/deps.py` |
| `ProjectsApi`, `IssuesApi`, `CommentsApi`, `AuthApi` | the endpoint files |
| `Client` | `frontend/src/api/client.ts` |
| `AuthContext` | `frontend/src/context/AuthContext.tsx` |
| `IssuesPage`, `IssueDetails`, `ProjectDetails` | the page files |
| `SignupForm` | `frontend/src/components/signup-form.tsx` |
| `JsText` | the JavaScript string operations the pages rely on: `trim`, `toLowerCase`, `toString`, `parseInt` |
| `Views` | the JSON records the pages read |

Outside effects are inputs rather than behaviour:

- password hashing and checking are the function parameters `hash` and `verify`;
- token decoding is the input `Deps.DecodedToken`;
- token creation is the claims record `Schemas.AccessClaims`.

## Model

| member | source | states |
|---|---|---|
| Query.FindIndex | backend/app/api/api_v1/endpoints/issues.py:96 | the index of the first row satisfying the predicate, or none iff no row does |
| Query.First | backend/app/api/deps.py:67-70 | `.first()`: the first satisfying row, none iff there is none |
| Query.Where | backend/app/api/api_v1/endpoints/issues.py:36-47 | `.filter()`: every kept row is a satisfying row of the table and every satisfying row is kept |
| Query.Window | backend/app/api/api_v1/endpoints/issues.py:50 | `.offset(skip).limit(limit)`: the slice `[skip, skip+limit)`, its exact length and its elements |
| Query.WhereWhere | backend/app/api/api_v1/endpoints/issues.py:42-47 | two filters in a row are one conjunctive filter |
| Query.WhereConcat | backend/app/api/api_v1/endpoints/comments.py:63-67 | filtering distributes over appending rows |
| Query.WhereSame | backend/app/api/api_v1/endpoints/projects.py:26-28 | filters that agree on every row select the same rows |
| Query.WhereNone | backend/app/api/api_v1/endpoints/comments.py:37 | a filter no row satisfies selects nothing |
| Query.WindowSplit | backend/app/api/api_v1/endpoints/issues.py:49-50 | consecutive slices join into one slice |
| Models.ParseStatus | backend/app/models/issue.py:8-12 | exactly the four status strings name a status, each its own |
| Models.ParsePriority | backend/app/models/issue.py:14-18 | exactly the four priority strings name a priority, each its own |
| Schemas.MinimalIssueCreate | backend/app/schemas/issue.py:7-16 | creation defaults: status open, priority medium, no description, no assignee |
| Schemas.NewIssue | backend/app/api/api_v1/endpoints/issues.py:77-80 | the row takes every field of the request and the given reporter |
| Schemas.MergeIssue | backend/app/schemas/issue.py:19-24 | every field sent replaces the stored one, every other field and id, project and reporter are kept |
| Schemas.SetIssueFieldsConcat | backend/app/api/api_v1/endpoints/issues.py:141-142 | applying two lists of fields is applying them one after the other |
| Schemas.SetIssueFieldsIsMerge | backend/app/api/api_v1/endpoints/issues.py:140-142 | the `setattr` sequence over the dumped fields is the field-wise merge |
| Schemas.MergeIssueIdempotent | backend/app/api/api_v1/endpoints/issues.py:140-142 | sending the same update twice equals sending it once |
| Schemas.MergeProject | backend/app/schemas/project.py:16-19 | every field sent replaces the stored one, the rest and the id are kept |
| Schemas.SetProjectFieldsConcat | backend/app/api/api_v1/endpoints/projects.py:172-173 | applying two lists of fields is applying them one after the other |
| Schemas.SetProjectFieldsIsMerge | backend/app/api/api_v1/endpoints/projects.py:164-173 | the `setattr` sequence over the dumped fields is the field-wise merge |
| Schemas.MemberCreateWithDefaultRole | backend/app/schemas/project.py:29-34 | a membership request without a role asks for "member" |
| Db.UserById | backend/app/api/deps.py:41 | none iff no user has the id, else a row of the table with that id |
| Db.UserByEmail | backend/app/api/api_v1/endpoints/auth.py:22 | none iff the email is free, else a row with that email |
| Db.ProjectIndex | backend/app/api/api_v1/endpoints/projects.py:78 | none iff no project has the id, else the position of one that has |
| Db.ProjectByKey | backend/app/api/api_v1/endpoints/projects.py:41 | none iff the key is free, else a row with that key |
| Db.IssueIndex | backend/app/api/api_v1/endpoints/issues.py:121 | none iff no issue has the id, else the position of one that has |
| Db.MemberProjectIds | backend/app/api/api_v1/endpoints/projects.py:26-27 | an id is listed iff the user has a membership row in that project |
| Db.Database.constructor | backend/app/models/project.py:11-26 | empty tables, counters at 1, invariant holds |
| Db.Database.InsertUser | backend/app/api/api_v1/endpoints/auth.py:54-62 | the row with the next id is appended, other tables and counters are kept, invariant holds |
| Db.Database.InsertProject | backend/app/api/api_v1/endpoints/projects.py:48-55 | the row with the next id is appended, keys stay unique, others kept |
| Db.Database.InsertMember | backend/app/api/api_v1/endpoints/projects.py:129-136 | the row with the next id is appended, no duplicate membership arises, others kept |
| Db.Database.InsertIssue | backend/app/api/api_v1/endpoints/issues.py:77-83 | the row with the next id and the given reporter is appended, others kept |
| Db.Database.InsertComment | backend/app/api/api_v1/endpoints/comments.py:63-70 | the row with the next id is appended, others kept |
| Db.Database.ReplaceProject | backend/app/api/api_v1/endpoints/projects.py:172-177 | one project row is replaced in place, ids and unique keys preserved |
| Db.Database.ReplaceIssue | backend/app/api/api_v1/endpoints/issues.py:140-146 | one issue row is replaced in place, ids and references preserved |
| Db.KeepsUsers | backend/app/models/user.py:11-13 | a table that keeps the ids of its prefix keeps every user id |
| Db.KeepsIssues | backend/app/models/comment.py:8 | a table that keeps the ids of its prefix keeps every issue id, so comments keep their issue |
| Db.KeepsProjects | backend/app/models/project.py:11-15 | a table that keeps the ids of its prefix keeps every project id |
| Db.MemberHasProject | backend/app/models/project.py:24 | every membership names an existing project (foreign key) |
| Deps.GetCurrentUser | backend/app/api/deps.py:22-44 | 401 without a bearer header, for a token that does not decode, without `sub` and for an unknown id; 500 for a non-numeric `sub`; else the user with that id |
| Deps.MembershipOf | backend/app/api/deps.py:67-70 | none iff the user is not a member; else a row of that pair, the only one when there are no duplicates |
| Deps.CheckIssuePermission | backend/app/api/deps.py:46-84 | false for non-members; true for a maintainer row; for update and delete, true iff reporter; else true |
| Deps.CheckProjectMaintainer | backend/app/api/deps.py:86-110 | true iff some row of that project and user carries the maintainer role |
| Deps.FirstRowRoleDecidesMaintainer | backend/app/api/api_v1/endpoints/projects.py:105-111 | without duplicate rows, the first row's role decides maintainer rights exactly as `check_project_maintainer` does |
| Deps.DuplicateRowsSplitMaintainerChecks | backend/app/models/project.py:22-26 | with duplicate rows, which the table allows, the two maintainer tests disagree |
| ProjectsApi.ReadProjects | backend/app/api/api_v1/endpoints/projects.py:12-29 | one window of the projects the caller has a membership row in, in the model's fixed row order, at most `limit` long |
| ProjectsApi.ReadProjectsListsAllMemberProjects | backend/app/api/api_v1/endpoints/projects.py:26-28 | every member project appears in a large enough page |
| ProjectsApi.CreateProject | backend/app/api/api_v1/endpoints/projects.py:32-66 | a taken key gives 400 and changes nothing; else exactly one project and one maintainer membership of the caller are added |
| ProjectsApi.ReadProject | backend/app/api/api_v1/endpoints/projects.py:69-91 | 404 for a missing project before 403 for a non-member; else the project |
| ProjectsApi.AddProjectMember | backend/app/api/api_v1/endpoints/projects.py:94-137 | 403 unless the caller's row is a maintainer's, then 404 project, 404 user, 400 already a member, each changing nothing; else exactly one row with the requested role |
| ProjectsApi.ApplyProjectUpdate | backend/app/api/api_v1/endpoints/projects.py:172-173 | the loop yields the field-wise merge |
| ProjectsApi.UpdateProject | backend/app/api/api_v1/endpoints/projects.py:140-178 | 404, then 403 for a non-maintainer, then 400 only for a new key held by another project; else only that row changes, to the merge, and keys stay unique |
| IssuesApi.FilteredIsMatching | backend/app/api/api_v1/endpoints/issues.py:28-47 | the chain of filters selects exactly the issues matching the whole query conjunctively |
| IssuesApi.ReadIssues | backend/app/api/api_v1/endpoints/issues.py:13-57 | 403 iff a given project (not 0) is not the caller's; else `total` counts every match and `items` is the `[skip, skip+limit)` slice, with skip and limit echoed |
| IssuesApi.ReadIssuesShowsOnlyVisible | backend/app/api/api_v1/endpoints/issues.py:37-50 | every listed issue is a row of the caller's projects matching each filter; the page is no longer than the limit or the total |
| IssuesApi.ReadIssuesPagesJoin | backend/app/api/api_v1/endpoints/issues.py:49-50 | consecutive pages together are the longer page |
| IssuesApi.CreateIssue | backend/app/api/api_v1/endpoints/issues.py:60-84 | 403 for a non-member, changing nothing; else exactly one row with the request's fields and the caller as reporter |
| IssuesApi.ReadIssue | backend/app/api/api_v1/endpoints/issues.py:87-108 | 404 before 403 for a non-member; else the row with that id |
| IssuesApi.ApplyIssueUpdate | backend/app/api/api_v1/endpoints/issues.py:140-142 | the loop yields the field-wise merge |
| IssuesApi.UpdateIssue | backend/app/api/api_v1/endpoints/issues.py:111-147 | 404, then 403 for a non-member, then 403 unless maintainer or reporter; else only that row changes, to the merge |
| CommentsApi.CommentsOfAppend | backend/app/api/api_v1/endpoints/comments.py:63-67 | a new comment goes at the end of its own issue's comments and nowhere else |
| CommentsApi.NoCommentsOnUnusedIssueId | backend/app/api/api_v1/endpoints/comments.py:37 | an issue id not yet handed out has no comments |
| CommentsApi.OnlyCommentReadsBack | backend/app/api/api_v1/endpoints/comments.py:25-37 | a member's default-page read of an issue whose only comment is `c` is exactly `[c]` |
| CommentsApi.FirstCommentReadsBack | backend/app/tests/api/api_v1/test_comments.py:29-49 | after a user creates a project, an issue in it and one comment, reading the issue's comments returns exactly that comment, by that user on that issue |
| CommentsApi.ReadComments | backend/app/api/api_v1/endpoints/comments.py:14-38 | 404, then 403 for a non-member; else one window of that issue's comments, in the model's fixed row order |
| CommentsApi.CreateComment | backend/app/api/api_v1/endpoints/comments.py:41-71 | 404, then 403, changing nothing; else one comment with the path's issue and the caller as author, now the issue's last |
| AuthApi.Login | backend/app/api/api_v1/endpoints/auth.py:15-36 | one 400 for an unknown email and for a wrong password; else a bearer token naming the user, expiring after the settings' default of 30 minutes |
| AuthApi.LoginNamesTheAccountOwner | backend/app/api/api_v1/endpoints/auth.py:22-36 | the owner of an email with the right password logs in as themselves |
| AuthApi.LoginTokenResolvesToUser | backend/app/api/api_v1/endpoints/auth.py:29-36 | the issued token's subject resolves through `get_current_user` to the user who logged in |
| AuthApi.CreateUser | backend/app/api/api_v1/endpoints/auth.py:39-62 | a taken email gives 400 and changes nothing; else one user with the hash of the password and the default role; emails stay unique |
| JsText.ToLowerAscii | frontend/src/pages/IssueDetails.tsx:356 | same length, capitals lowered, every other character kept |
| JsText.NatToString | frontend/src/pages/IssueDetails.tsx:360 | a non-empty run of digits |
| JsText.IntToString | frontend/src/pages/IssueDetails.tsx:360 | a non-empty string |
| JsText.DigitRun | frontend/src/pages/IssueDetails.tsx:194 | the longest prefix of digits |
| JsText.LeadingWhitespace | frontend/src/pages/IssueDetails.tsx:194 | the longest prefix of white space |
| JsText.ParseInt | frontend/src/pages/IssueDetails.tsx:194 | `NaN` iff no digit follows the white space and an optional sign |
| JsText.DigitRunOfDigits | frontend/src/pages/IssueDetails.tsx:194 | a string of digits is read to its end |
| JsText.DigitsValueOfNat | frontend/src/pages/IssueDetails.tsx:360 | the digits of a number read back as that number |
| JsText.ParseIntOfIntToString | frontend/src/pages/IssueDetails.tsx:194 | `parseInt(n.toString()) == n` |
| Client.WithBearer | frontend/src/api/client.ts:12-17 | with a truthy token, exactly `Authorization: Bearer <token>` is added; else the headers are untouched |
| Client.PathAfterUnauthorized | frontend/src/api/client.ts:26-28 | /login unless the path is /login or /signup, which are kept |
| Client.Browser.constructor | frontend/src/api/client.ts:13 | the given token and path |
| Client.RequestConfig.constructor | frontend/src/api/client.ts:12 | the given headers |
| Client.Api.constructor | frontend/src/api/client.ts:5-10 | the given browser, nothing sent |
| Client.Api.InterceptRequest | frontend/src/api/client.ts:12-18 | the config's headers become `WithBearer` of the stored token |
| Client.Api.InterceptError | frontend/src/api/client.ts:20-31 | a 401 removes the token and redirects unless on a public page; any other error changes nothing |
| Client.Api.Send | frontend/src/api/client.ts:5-31 | one request logged with the JSON content type and the bearer header; the reply is passed on unchanged; only a 401 touches token and path |
| AuthContext.AuthProvider.constructor | frontend/src/context/AuthContext.tsx:20-21 | no user, loading |
| AuthContext.AuthProvider.FetchUser | frontend/src/context/AuthContext.tsx:23-37 | a request iff a truthy token; none keeps the user; success sets it; failure removes token and user; loading ends always |
| AuthContext.AuthProvider.Login | frontend/src/context/AuthContext.tsx:43-46 | the token is stored before the fetch; after a failed fetch neither token nor user remains and the browser leaves for `/login` only on a 401; an empty token or a successful fetch leaves the path unchanged |
| AuthContext.AuthProvider.Logout | frontend/src/context/AuthContext.tsx:48-52 | no token, no user, path /login, whatever the state before, so a second logout changes nothing |
| IssuesPage.SkipFor | frontend/src/pages/Issues.tsx:41-46 | `skip = (page-1)*10`, non-negative from page 1 on |
| IssuesPage.TotalPages | frontend/src/pages/Issues.tsx:63 | the ceiling of `total/10`: the fewest pages of ten that hold `total` |
| IssuesPage.RangeWithinTotal | frontend/src/pages/Issues.tsx:165 | on an existing page `1 <= first <= last <= total` |
| IssuesPage.PreviousPage | frontend/src/pages/Issues.tsx:171 | one back, never below 1 |
| IssuesPage.NextPage | frontend/src/pages/Issues.tsx:183 | one on, never above the page count |
| IssuesPage.ControlsStayInRange | frontend/src/pages/Issues.tsx:171-184 | from an existing page both controls lead to an existing page |
| IssuesPage.StatusBadgeVariant | frontend/src/pages/Issues.tsx:65-73 | open default, in_progress secondary, resolved and closed outline, else default |
| IssuesPage.PriorityBadgeVariant | frontend/src/pages/Issues.tsx:75-82 | low outline, medium secondary, high destructive, anything else (critical too) default |
| IssuesPage.IssuesView.constructor | frontend/src/pages/Issues.tsx:37-40 | no issues, total 0, page 1, loading |
| IssuesPage.IssuesView.FetchIssues | frontend/src/pages/Issues.tsx:43-57 | one GET with skip and limit; success shows items and total, failure keeps them; loading ends; the token and path are what the reply left |
| IssuesPage.IssuesView.ClickPrevious | frontend/src/pages/Issues.tsx:162-172 | only callable while the controls are shown (more than one page); a disabled button does nothing, else the page moves back; a page within `1..totalPages` stays within it |
| IssuesPage.IssuesView.ClickNext | frontend/src/pages/Issues.tsx:162-184 | only callable while the controls are shown (more than one page); a disabled button does nothing, else the page moves on; a page within `1..totalPages` stays within it |
| IssueDetails.CanEditIssue | frontend/src/pages/IssueDetails.tsx:126-136 | false without user or issue; else true iff the role is exactly maintainer or the user reported the issue |
| IssueDetails.EditRoleShowsSelector | frontend/src/pages/IssueDetails.tsx:356 | the exact maintainer role also shows the assignee selector |
| IssueDetails.CapitalizedRoleShowsSelectorOnly | frontend/src/pages/IssueDetails.tsx:130 | "Maintainer" shows the selector but grants no edit to a non-reporter |
| IssueDetails.SelectValue | frontend/src/pages/IssueDetails.tsx:360 | the assignee id as text, or "unassigned" |
| IssueDetails.AssigneePayload | frontend/src/pages/IssueDetails.tsx:194 | null for "unassigned" and for unreadable text, else the parsed number |
| IssueDetails.LocalAssignee | frontend/src/pages/IssueDetails.tsx:197 | absent iff the payload is null or 0, else the payload's number |
| IssueDetails.ChoosingUserRoundTrips | frontend/src/pages/IssueDetails.tsx:194-197 | choosing a user's entry sends and keeps that id and shows the same entry |
| IssueDetails.DescriptionDraft | frontend/src/pages/IssueDetails.tsx:165 | the current description, or empty |
| IssueDetails.IssueDetailsView.constructor | frontend/src/pages/IssueDetails.tsx:44-67 | the initial state of every field |
| IssueDetails.IssueDetailsView.LoadFirstUsers | frontend/src/pages/IssueDetails.tsx:81-88 | one GET of `/users/?skip=0&limit=10`; success sets the list, `hasMore` iff ten came back, and skip 10; failure keeps all three; token and path are what the reply left; every other field unchanged |
| IssueDetails.IssueDetailsView.LoadRole | frontend/src/pages/IssueDetails.tsx:91-98 | one GET of the project's `/my-membership`; success stores the role, failure keeps the old one; token and path are what the reply left; every other field unchanged |
| IssueDetails.IssueDetailsView.LoadComments | frontend/src/pages/IssueDetails.tsx:100-101 | one GET of `/comments/issue/<id>`; success replaces the comments, failure keeps them; token and path are what the reply left; every other field unchanged |
| IssueDetails.IssueDetailsView.LoadRelated | frontend/src/pages/IssueDetails.tsx:81-101 | exactly the users, membership (only when signed in) and comments GETs in that order, each with the token the previous reply left; the final token and path are the chain of what the replies left; users, role and comments each as their reply says; every other field unchanged |
| IssueDetails.IssueDetailsView.FetchData | frontend/src/pages/IssueDetails.tsx:72-107 | nothing sent and token and path kept without an id; a failed issue fetch sends only that request and leaves what its reply left; else exactly the issue, users, membership (only when signed in) and comments requests in that order, each with the token left by the previous reply, ending with the token and path the chain of replies left; issue and status set, users, role and comments each as their reply says; loading ends; paging invariant kept; the comment draft, the description-edit fields and the assignee flag unchanged |
| IssueDetails.IssueDetailsView.LoadMoreUsers | frontend/src/pages/IssueDetails.tsx:113-123 | no-op (nothing sent, token and path kept) without `hasMore`; else one GET of the page at offset `userSkip`, appended in order, skip grows by 10, `hasMore` iff ten came back, token and path as the reply left; the next skip is always the number listed; every other field unchanged |
| IssueDetails.IssueDetailsView.HandleStatusChange | frontend/src/pages/IssueDetails.tsx:138-146 | one PATCH; status and issue change only on success; token and path as the reply left; every other field unchanged |
| IssueDetails.IssueDetailsView.HandlePostComment | frontend/src/pages/IssueDetails.tsx:148-162 | a blank draft sends nothing and keeps token and path; else exactly the POST of the draft, then, only after success, the GET of the same comments URL; success clears the draft and takes the refetched list when that GET succeeds; failure keeps the draft; token and path are what the last reply left; the flag ends cleared; only the draft, the flag and the comments may change |
| IssueDetails.IssueDetailsView.HandleEditDescription | frontend/src/pages/IssueDetails.tsx:164-167 | the draft starts from the description and editing begins; nothing else changes and nothing is sent |
| IssueDetails.IssueDetailsView.HandleSaveDescription | frontend/src/pages/IssueDetails.tsx:169-183 | nothing sent, token and path kept without an id; else one PATCH, token and path as the reply left; description replaced and editing left only on success; the flag ends cleared; only the issue, the editing flag and the saving flag may change |
| IssueDetails.IssueDetailsView.HandleCancelEdit | frontend/src/pages/IssueDetails.tsx:185-188 | editing ends, the draft is cleared; nothing else changes and nothing is sent |
| IssueDetails.IssueDetailsView.HandleAssigneeChange | frontend/src/pages/IssueDetails.tsx:190-204 | nothing sent, token and path kept without an id; else one PATCH with the payload, token and path as the reply left; on success the local assignee becomes its local form; only the issue and the assignee flag may change |
| ProjectDetails.StatusColor | frontend/src/pages/ProjectDetails.tsx:89-97 | open default, in_progress secondary, closed destructive, anything else (resolved too) outline |
| ProjectDetails.ExtractIssues | frontend/src/pages/ProjectDetails.tsx:53 | the `items` array when present, else the whole body |
| ProjectDetails.ProjectIdPayload | frontend/src/pages/ProjectDetails.tsx:74 | `parseInt(id)`, sent as null when unreadable |
| ProjectDetails.ProjectIdPayloadOfRoute | frontend/src/pages/ProjectDetails.tsx:74 | a route id written from a project id sends that id |
| ProjectDetails.ProjectDetailsView.constructor | frontend/src/pages/ProjectDetails.tsx:34-43 | no project, no issues, loading, closed empty dialog with priority medium |
| ProjectDetails.ProjectDetailsView.FetchData | frontend/src/pages/ProjectDetails.tsx:45-59 | nothing without an id; exactly the project request, then the issues request with `project_id`; a failed project fetch sends only the first; the token and path are what the last reply left; loading ends always |
| ProjectDetails.ProjectDetailsView.HandleCreateIssue | frontend/src/pages/ProjectDetails.tsx:65-87 | nothing without an id; else one POST with status open and the parsed id; success resets the dialog and asks for a refresh, failure keeps it; the token and path are what the reply left; the flag ends cleared |
| SignupForm.ValidationError | frontend/src/components/signup-form.tsx:32-40 | the mismatch message first, then the length message below 8; none iff both checks pass |
| SignupForm.FailureMessage | frontend/src/components/signup-form.tsx:48 | the server's `detail` when truthy (a non-empty text, or a 422 list of validation errors), else the fallback text |
| SignupForm.SignupFormView.constructor | frontend/src/components/signup-form.tsx:20-25 | empty fields, no error, not loading |
| SignupForm.SignupFormView.HandleSubmit | frontend/src/components/signup-form.tsx:28-52 | the error is cleared first; a failed check shows its message and sends nothing; else one POST of email, name and password; success goes to /login, failure shows the server's truthy `detail`, list or text, else the fallback, with the token and path the reply left; the flag ends cleared |
| Consistency.IssueJson | backend/app/schemas/issue.py:27-32 | the JSON carries the row's ids and the string values of its status and priority |
| Consistency.UserJson | backend/app/api/api_v1/endpoints/users.py:9-16 | `/users/me` carries the caller's id and email |
| Consistency.EditButtonMatchesServer | frontend/src/pages/IssueDetails.tsx:126-136 | for a member holding their row's role, the edit button shows iff `update_issue` and `check_issue_permission` accept |
| Consistency.CapitalizedMaintainerRole | backend/app/api/api_v1/endpoints/projects.py:129-133 | a stored "Maintainer" role shows the selector, while the client and the server both refuse a non-reporter's update |
| Consistency.AssigneeUpdate | backend/app/schemas/issue.py:19-24 | a sent `assignee_id` updates only the assignee, null clearing it |
| Consistency.LocalAssigneeMatchesStored | frontend/src/pages/IssueDetails.tsx:194-197 | the page's assignee equals the stored one iff the payload is not 0 |
| Consistency.ChoosingUserIsStored | frontend/src/pages/IssueDetails.tsx:190-204 | choosing a user stores that user and the selector shows the same entry |
| Consistency.StatusColouringsAgree | frontend/src/pages/ProjectDetails.tsx:89-97 | the two pages colour a status alike iff it is not closed |
| Consistency.CriticalPriorityDisplay | frontend/src/pages/Issues.tsx:75-82 | only critical gets the fallback badge, while the project page highlights critical and high |
| Consistency.PageQuery | frontend/src/pages/Issues.tsx:46-49 | the list's request: page offset, limit 10, no filters |
| Consistency.PageHasIssuesIffCounted | frontend/src/pages/Issues.tsx:63 | every page is answered with the same total, and a page has issues iff it is within the page count |
| Consistency.PagesAreWindow | frontend/src/pages/Issues.tsx:46-49 | for the model's fixed row order, consecutive pages are one window of the visible issues |
| Consistency.AllPagesShowEverything | frontend/src/pages/Issues.tsx:63 | for the model's fixed row order, the counted pages together are exactly the visible issues, in that order |
| Consistency.ProjectPageQuery | frontend/src/pages/ProjectDetails.tsx:52 | the project page's request: that project, default page |
| Consistency.ProjectPageListsItsIssues | frontend/src/pages/ProjectDetails.tsx:52-53 | answered iff the caller is a member; only that project's issues, the first hundred of them |

## Left out

- Request validation by pydantic is not modelled on the backend: the 422 answers and `EmailStr`. On the frontend a 422's list-valued `detail` is modelled (`Client.ListDetail`).
- Negative `skip`/`limit` are not modelled. They are plain `int` query parameters, so pydantic accepts them. PostgreSQL then refuses a negative `OFFSET` or `LIMIT`, and the answer is a 500. The model's `skip` and `limit` are `nat`, which excludes these values.
- Schemas.MergeIssue, Schemas.MergeProject: an explicit `null` for `title`, `status`, `priority`, `name` or `key` is not modelled. `IssueUpdate` and `ProjectUpdate` declare every field `Optional[...] = None`, so `null` passes validation, survives `model_dump(exclude_unset=True)` and is written by `setattr`. For `title`, `name` and `key` (columns `nullable=False`) the commit then fails with a 500. For `status` and `priority` (nullable columns) NULL is stored and the response cannot be serialized. For `key` the 400 check of `update_project` also runs with `None`. `Patch<T>` has only `Keep` and `Put` of a value of the field's type, so it cannot express these cases.
- Query.First, Query.Where, Query.Window, Deps.MembershipOf, Deps.DuplicateRowsSplitMaintainerChecks, ProjectsApi.ReadProjects, IssuesApi.ReadIssues, CommentsApi.ReadComments, Consistency.PagesAreWindow, Consistency.AllPagesShowEverything: these fix one scan order for every query, the order rows were inserted, and `ReplaceIssue`/`ReplaceProject` keep a row in its place. The source's queries have no `ORDER BY`, and PostgreSQL promises no order for them. Separate `OFFSET`/`LIMIT` requests may see different orders, and an update may move a row. So the order these members state, and "each issue exactly once across pages", hold only for that fixed order.
- AuthApi.Login: the expiry is the settings' default of 30 minutes; an environment override of `ACCESS_TOKEN_EXPIRE_MINUTES` is not modelled.
- A `detail` that is a number or an object is not modelled; the backend sends only texts and 422 lists. How React renders a list-valued error is not modelled.
- Database integrity errors are not modelled. An `assignee_id` naming no user would fail the foreign key at commit time; the model stores it.
- Timestamps (`created_at`, `updated_at`) are left out, since they are clock readings.
- JWT encoding and decoding, password hashing and `create_access_token` are foreign calls. They appear only as inputs: `DecodedToken`, the `hash` and `verify` parameters, and the claims record.
- `TokenData`'s own validation of `sub` is folded into `Subject`.
- `create_project` commits twice. The model performs both inserts together, so a failure between the two commits is not modelled.
- Concurrency is not modelled: async interleavings of React effects and requests in flight at the same time.
- The `useEffect` hooks are not modelled. They run the fetches on mount and again whenever their dependencies change: `page` for the issue list, `[id, user]` for the issue page, `[id]` for the project page. IssuesPage.IssuesView.ClickPrevious and IssuesPage.IssuesView.ClickNext change only `page`; the `FetchIssues` that follows is left to the caller.
- JavaScript's Unicode case mapping is not modelled: `ToLowerAscii` lowers ASCII capitals only. String lengths count code points, not UTF-16 units.
- `parseInt` is modelled in base ten only, with no hexadecimal prefix. Numbers are unbounded integers; there is no floating point and no `Infinity`.
- Rendering, routing and styling are left out. So are the loading and "not found" screens, and the `loading && issues.length === 0` screen of the issue list.
- `/users/` and `/projects/{id}/my-membership`, which the issue page requests, are not among the backend endpoints modelled here. For the role, `Consistency` assumes the caller's membership row's role.
- `ProjectDetails.ExtractIssues`: a body whose `items` is present but `null` or absent is not distinguished from a bare list.
- The issue list reads `data.total` as a natural number. A response with an odd shape is not modelled.


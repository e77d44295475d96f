# Role-based business app: request gate, messaging and role scoping

A Dafny model of the authorization and messaging core of a Next.js business application
with three roles (ADMIN, EMPLOYEE, CLIENT). It covers:

- **The request gate** (`middleware.ts`). It takes a request path, the optional `token`
  cookie and what token verification makes of it. It decides whether to pass the request on,
  redirect it, or answer 403, using raw `startsWith` tests against the lower-cased role.
- **The older gate** (`app/middleware.ts`). The framework does not load it.
- **The messages routes.**
  - GET groups the caller's messages into one conversation per counterparty.
  - POST sends a message.
  - PUT sets a message's read flag.
  - The contacts route lists the users the caller may message, by role.
- **The messaging panel.** It opens or creates a conversation, sends the draft, shows the
  selected thread in time order, and lists contacts.
- **The login and register ladders.** These are early returns with distinct status codes,
  checked against the request-body schemas.
- **The employee and client routes.** These scope projects and service requests to the
  caller's profile record.
- **Small dashboard state updates** on the admin, client and employee pages.

Layout: one module per source file or component.

- `common.dfy`: roles, session claims, JSON fields with JavaScript truthiness, replies, and
  the string primitives (`startsWith`, `includes`, ASCII `toLowerCase`/`toUpperCase`, `trim`).
- `seqs.dfy`: `Array.prototype.filter` and its lemmas.
- `store.dfy`: the tables as a `Database` class with sequence fields, and the lookups.
- The remaining files follow the source files.

External collaborators are parameters: token verification and signing, password hashing
and comparison, the e-mail format check, the session lookup (`getCurrentUser`), the
project-update schema, ids and timestamps chosen by the store, and the outcomes of the
pages' fetch calls.

Where the code and its design notes disagree, the model follows the code:

- **PUT on an unknown message id** answers 500 from the catch block, not 404.
- **Token lifetime.** Tokens are signed without an expiry. The only seven-day limit is the
  cookie's max-age.
- **Where the gate runs.** It runs only on the paths of its matcher, so `/login` never
  reaches it.
- **Role and scope checks.** The routes check neither role nor scope beyond what is listed
  below. In particular, the employee project PUT updates any project.
- **The messaging API is closed.** Every role gets 403 from the gate on it (see Findings).

## Model

| member | source | states |
|---|---|---|
| Common.ParseRole | app/lib/schemaTypes.ts:7 | a role name parses exactly when it is one of the three enum spellings, and parsing inverts RoleName |
| Common.ToLower | middleware.ts:23 | lower-casing keeps the length and maps every character |
| Common.Trim | app/components/Messages.tsx:77 | the result is a slice of the input with only white space cut off before and after it; it is empty exactly for all-white-space input and otherwise has no white space at either end |
| Gate.SegmentIsLowerCase | middleware.ts:23 | the role as a path segment ("admin", "client" or "employee") is exactly the lower-cased role name |
| Gate.RoleRule | middleware.ts:25-38 | an API path is never redirected and a page path never gets 403; the request passes exactly on /api/profile, on /api/<role>, or on a page path under /<role> |
| Gate.Middleware | middleware.ts:5-38 | public paths pass; otherwise no valid token means a redirect to /login; 403 only on API paths with valid claims; every redirect goes to /login or to the caller's home; whatever passes is public, /api/profile, or the caller's own area |
| Gate.MatchedPublicIsAuthApi | middleware.ts:10-12 | among matched paths the only public ones are under /api/auth |
| Gate.GateAppliesRoleRule | middleware.ts:14-38 | for valid claims on a non-public path the gate is the role rule |
| Gate.OtherRoleApiForbidden | middleware.ts:28-30 | valid claims of another role on /api/<role>... always give 403, e.g. an EMPLOYEE on /api/client |
| Gate.OtherRolePageRedirected | middleware.ts:35-37 | valid claims of another role on /<role>... redirect to the caller's home, e.g. an ADMIN on /client goes to /admin |
| Gate.MessagingApiForbidden | middleware.ts:25-31 | every authenticated caller gets 403 on /api/messages and /api/messages/contacts |
| Gate.NoSegmentBoundary | middleware.ts:25-38 | an ADMIN passes on /api/adminfoo and on /administrator; the first is matched and the second is not |
| Gate.SharedMiddleware | middleware.ts:25-31 | the corrected gate: the same decision off /api/messages, a pass on it for any valid claims, and a login redirect without them |
| LegacyGate.LegacyMiddleware | app/middleware.ts:4-26 | no valid token means a redirect to /login on every path; never 403; every API path passes; a page path outside the caller's area goes to the caller's home |
| LegacyGate.PagesAgree | app/middleware.ts:19-25 | on matched page paths with valid claims the older gate decides as the root gate does |
| LegacyGate.LoginApiBlockedWithoutToken | app/middleware.ts:7-9 | without a token the older gate redirects /api/auth/login, which the root gate lets through |
| Store.FindUserByEmail | app/api/auth/login/route.ts:24-28 | the lookup finds a user with that e-mail, and finds none exactly when no user has it |
| Store.FindUserById | app/api/messages/route.ts:67-69 | the lookup finds the user with that id, and finds none exactly when no user has it |
| Store.FindClientOf | app/api/client/projects/route.ts:12-14 | the client record of a user, and none exactly when the user has no client record |
| Store.FindEmployeeOf | app/api/employee/projects/route.ts:19-20 | the employee record of a user, and none exactly when the user has no employee record |
| Store.FindMessage | app/api/messages/route.ts:85-88 | the message with that id, and none exactly when no message has it |
| Store.FindService | app/api/client/requests/route.ts:73-80 | the service with that id, and none exactly when no service has it |
| Store.FindProject | app/api/employee/projects/route.ts:75-80 | the project with that id, and none exactly when no project has it |
| Store.WithStatusChangesOnlyMatching | app/admin/page.tsx:769-771 | a status update keeps length, order and every other field; only projects with that id change, so unique project ids stay unique; repeating it changes nothing |
| Store.WithReadChangesOnlyRead | app/api/messages/route.ts:85-88 | a read-flag update touches only the read flag of messages with that id, keeps ids unique, and is idempotent |
| Conversations.FirstSeen | app/api/messages/route.ts:41-46 | the index of the first message with a given counterparty, or the length when there is none |
| Conversations.FindIndex | app/api/messages/route.ts:41 | -1 exactly when no conversation has the partner; otherwise a position whose partner matches |
| Conversations.FindPartner | app/api/messages/route.ts:41 | the front-to-back scan answers what findIndex answers, namely the first match or -1 |
| Conversations.GroupIsGrouping | app/api/messages/route.ts:38-48 | the reduce yields distinct partners; each conversation is exactly its partner's messages in input order; every message is covered; partners come in first-seen order; lengths sum to the input length |
| Conversations.GroupConversations | app/api/messages/route.ts:38-48 | the loop with push and in-place append computes the grouping, with all the properties above |
| Conversations.GroupPartition | app/api/messages/route.ts:38-48 | a message lies in a conversation exactly when that conversation's partner is its counterparty, and such a conversation exists |
| Conversations.GroupNewestFirst | app/api/messages/route.ts:35-46 | with newest-first input every conversation is newest first, so its first message is its most recent |
| Conversations.PartnerOfOwnMessage | app/api/messages/route.ts:39 | the counterparty is the receiver of a sent message and the sender of a received one; a message to oneself is grouped under one's own id |
| Conversations.GroupExample | app/api/messages/route.ts:38-48 | three messages of u1 (from u2, to u3, from u3) give u2's conversation first with one message, then u3's with two in input order |
| MessagesApi.ListConversations | app/api/messages/route.ts:6-56 | 401 without a session whatever the store holds; 500 when the query fails; otherwise 200 with distinct partners, each taken from the first message that involves it (so no messages give no conversations), each conversation exactly its partner's thread in input order, every message covered, first-seen order, and lengths summing to the number of messages |
| MessagesApi.CallerMessages | app/api/messages/route.ts:11-14 | the query keeps exactly the messages the caller sent or received |
| MessagesApi.ConversationsAreBetweenCallerAndPartner | app/api/messages/route.ts:11-48 | when the grouped rows are the caller's messages with their own sender and receiver joined in, every message of a conversation passes between the caller and that conversation's partner |
| MessagesApi.CheckPost | app/api/messages/route.ts:62-65 | 400 exactly when receiverId or message is falsy; accepted exactly when both are non-empty strings |
| MessagesApi.SendMessage | app/api/messages/route.ts:58-75 | 401 exactly without a session; 400 exactly on missing fields; 500 exactly for non-strings, an unknown receiver or a caller no longer in the user table; the table is unchanged in each; on 201 exactly one message is appended, from the caller, unread |
| MessagesApi.SetRead | app/api/messages/route.ts:77-94 | 401 exactly without a session; 400 exactly on a falsy id or a non-boolean read; 500 exactly on a non-string or unknown id; on 200 only the read flag of that message changes; any caller may update any message |
| MessagesApi.SetReadIdempotent | app/api/messages/route.ts:85-88 | setting the same flag twice equals setting it once, and the message stays findable |
| Contacts.ListContacts | app/api/messages/contacts/route.ts:5-40 | 401 without a session; 500 when the query fails; otherwise exactly the users whose role the caller may see |
| Contacts.SortByEmail | app/api/messages/contacts/route.ts:32 | the sort yields ascending e-mail order and a permutation of its input |
| Contacts.AdminSeesEveryone | app/api/messages/contacts/route.ts:12-14 | an ADMIN gets every user of the table, itself and the other admins included, each as often as in the table |
| Contacts.NonAdminSeesOtherRoles | app/api/messages/contacts/route.ts:15-20 | an EMPLOYEE or CLIENT never sees a user of its own role, hence never itself, and always sees every ADMIN |
| Contacts.ContactsByEmail | app/api/messages/contacts/route.ts:12-35 | the reply is in ascending e-mail order and is a permutation of the visible users of the table |
| Schemas.ParseRegister | app/lib/schemaTypes.ts:4-8 | accepts exactly an e-mail-format string, a password of at least 6 characters and one of the three role names, and yields those fields |
| Schemas.LoginAcceptsAnyStrings | app/lib/schemaTypes.ts:10-13 | every body whose e-mail and password are strings parses, whatever else it carries, to exactly those two strings |
| Schemas.LoginIgnoresOtherKeys | app/lib/schemaTypes.ts:10-13 | adding or changing a key other than email and password never changes what the login schema answers |
| Schemas.RegisterExamples | app/lib/schemaTypes.ts:6-7 | a 5-character password is refused; a 6-character one is accepted for every role, ADMIN included |
| Schemas.LoginExamples | app/lib/schemaTypes.ts:10-13 | empty strings are accepted; a missing or non-string field is refused |
| Schemas.RegisterIgnoresOtherKeys | app/lib/schemaTypes.ts:4-8 | adding or changing a key other than email, password and role never changes what the register schema answers |
| Login.HandleLogin | app/api/auth/login/route.ts:8-61 | 400 exactly on a bad body, before any lookup; 404 exactly on an unknown e-mail; 401 exactly on a wrong password; 200 exactly for a known e-mail with a matching password; on 200 the data is the user's id, role and e-mail and the token cookie is httpOnly, lax, 604800 s, secure only in production; no cookie otherwise |
| Login.TokenMatchesReply | app/api/auth/login/route.ts:42-57 | the signed token covers exactly the claims returned |
| Register.RegisterLadder | app/api/auth/register/route.ts:7-43 | the checks run in order: 401 exactly without a cookie, 403 exactly for failed verification or a non-ADMIN, then 400 for a bad body, then 409 for a taken e-mail; it proceeds exactly for an ADMIN with a valid body and a fresh e-mail |
| Register.RegisterUser | app/api/auth/register/route.ts:7-78 | 201 exactly when the ladder proceeds; a refusal leaves every table unchanged; success appends one user with the hashed password, plus a client profile for a CLIENT or an employee profile for an EMPLOYEE, both named with the e-mail; e-mails stay unique |
| Register.RegisterTwiceConflicts | app/api/auth/register/route.ts:36-43 | repeating a successful registration answers 409 |
| EmployeeApi.AssignedProjects | app/api/employee/projects/route.ts:19-44 | the result is exactly the projects of the employee's assignments, restricted to the requested status |
| EmployeeApi.AssignedProjectsAppend | app/api/employee/projects/route.ts:44 | the result follows assignment order |
| EmployeeApi.ListEmployeeProjects | app/api/employee/projects/route.ts:6-60 | 401 without a session, 403 for a non-EMPLOYEE; 500 for a status filter that is not a project status, before the employee lookup; 404 without an employee record; on 200 the assigned projects with the requested status, and a null userName exactly when the name is empty |
| EmployeeApi.EmptyStatusIsNoFilter | app/api/employee/projects/route.ts:16-25 | an empty `status` parameter is falsy, so the reply equals the reply without one |
| EmployeeApi.UpdateProjectStatus | app/api/employee/projects/route.ts:62-90 | 400 on an invalid body; 500 on a status outside the five project statuses or on an unknown id; both leave projects unchanged; 200 exactly for a valid status and a known id, and then only that project's status changes; no role or assignment check; the store's uniqueness constraints are kept |
| EmployeeApi.EmployeeApiGated | app/api/employee/projects/route.ts:62-84 | the route checks no role; the gate lets only an EMPLOYEE through under /api/employee |
| ClientApi.ListClientProjects | app/api/client/projects/route.ts:5-41 | 401 without a session; 404 without a client record; on 200 exactly the projects of the caller's client |
| ClientApi.ListClientRequests | app/api/client/requests/route.ts:5-39 | 401 without a session; 500 without a client record; on 200 exactly the requests of the caller's client |
| ClientApi.CreateRequest | app/api/client/requests/route.ts:41-91 | 401 exactly without a session; 400 exactly on a falsy id, checked before the client record; 500 exactly without a client record or for a non-string or unknown service id; on 200 exactly one PENDING request is appended for the caller's client |
| ClientApi.NoClientRecord | app/api/client/projects/route.ts:12-17 | without a client record, whatever the role, projects answer 404 and requests answer 500 |
| ClientApi.ClientApiGated | app/api/client/requests/route.ts:41-49 | the routes check no role; the gate lets only a CLIENT through under /api/client |
| MessagePanel.DisplayName | app/components/Messages.tsx:40-43 | the employee name, else the client name, else the e-mail, else "User"; never empty |
| MessagePanel.Initial | app/components/Messages.tsx:45-48 | one character, never a lower-case letter, the same letter as the display name's first character up to case, and different from it only when that is a lower-case letter |
| MessagePanel.Choices | app/components/Messages.tsx:110 | every contact except the current user |
| MessagePanel.Opened | app/components/Messages.tsx:63-73 | a conversation with the contact exists afterwards; the list is unchanged when one existed; otherwise exactly one empty conversation is prepended |
| MessagePanel.OpenedKeepsDistinct | app/components/Messages.tsx:65-71 | opening never creates a second conversation with the same partner |
| MessagePanel.Prepended | app/components/Messages.tsx:80-82 | partners and length unchanged; the created message goes in front of the matching conversation only |
| MessagePanel.PrependedOne | app/components/Messages.tsx:80-82 | a send keeps partners distinct and adds exactly one message when the partner has a conversation |
| MessagePanel.Insert | app/components/Messages.tsx:174-176 | inserting into a time-ordered thread keeps it time-ordered and adds exactly that message |
| MessagePanel.ByTime | app/components/Messages.tsx:174-176 | the displayed copy is time-ordered ascending and a permutation of the conversation |
| MessagePanel.FindConversation | app/components/Messages.tsx:65 | the first conversation with the partner, or the length exactly when there is none |
| MessagePanel.Panel.Selected | app/components/Messages.tsx:38 | the selected conversation belongs to the list and has the selected partner; it is the first such conversation, as `find` returns; none only when nothing is selected or no conversation has that partner |
| MessagePanel.Panel.DisplayedThread | app/components/Messages.tsx:174-176 | the selected thread sorted ascending by time, as a permutation; the stored list is untouched |
| MessagePanel.Panel.DropdownChoices | app/components/Messages.tsx:109-110 | the dropdown lists exactly the contacts other than the current user |
| MessagePanel.Panel.Load | app/components/Messages.tsx:18-32 | on success the fetched state, with the first conversation's partner selected; on failure nothing changes |
| MessagePanel.Panel.OpenOrCreate | app/components/Messages.tsx:63-73 | the list becomes Opened, the contact is selected whether or not it existed, and the selection resolves to its conversation |
| MessagePanel.Panel.Send | app/components/Messages.tsx:75-89 | no partner or a blank draft means no request and no change; otherwise the request is the partner and the trimmed draft; on success the message is prepended and the draft cleared; on failure nothing changes |
| AdminPage.Toggled | app/admin/page.tsx:923-926 | an id is selected afterwards exactly when its membership flipped; an unselected id is appended after the others in their order; a selected one is removed as Removed removes it |
| AdminPage.Removed | app/admin/page.tsx:945-947 | exactly the other ids remain, and nothing changes when the id was not selected |
| AdminPage.RemovedKeepsOrder | app/admin/page.tsx:945-947 | removal keeps the order of what remains: each kept id stays after the ids before it and before the ids after it |
| AdminPage.ToggledDistinct | app/admin/page.tsx:923-926 | toggling keeps the selection free of repetitions |
| AdminPage.ToggleTwice | app/admin/page.tsx:923-926 | toggling twice restores the list when the id was absent, and the set of ids always |
| AdminPage.TextsMembers | app/admin/page.tsx:930-937 | the texts are exactly the values of the present, non-empty fields: each of those is among them and nothing else is |
| AdminPage.TextsAppend | app/admin/page.tsx:930-937 | the texts of two field lists are those of the first followed by those of the second, and one field gives its value or nothing: the texts keep field order and multiplicity |
| AdminPage.JoinSplit | app/admin/page.tsx:938 | every part occurs in the joined string |
| AdminPage.FieldMatch | app/admin/page.tsx:928-943 | an employee is listed when one of its present fields, lower-cased, contains the lower-cased query |
| AdminPage.FilteredEmployees | app/admin/page.tsx:928-943 | exactly the employees that match the search |
| AdminPage.EmptySearchKeepsAll | app/admin/page.tsx:928-929 | an empty search lists every employee; an employee whose id contains the query is listed |
| AdminPage.AddCandidates | app/admin/page.tsx:660-665 | exactly the matching employees not already on the project |
| AdminPage.AssignModal.ToggleEmployee | app/admin/page.tsx:923-926 | the selection becomes Toggled and nothing else changes |
| AdminPage.AssignModal.RemoveSelected | app/admin/page.tsx:945-947 | the selection becomes Removed and nothing else changes |
| AdminPage.AssignModal.Listed | app/admin/page.tsx:928-943 | with an empty search the dialog lists every employee |
| AdminPage.AssignModal.SubmitEnabled | app/admin/page.tsx:1088 | submit is enabled exactly when not loading, the name is not all white space and the selection is non-empty |
| AdminPage.ProjectsPanel.StatusChange | app/admin/page.tsx:760-780 | on an ok response only the matching project's status changes; otherwise the list is unchanged |
| AdminPage.UsersList.Delete | app/admin/page.tsx:140-158 | a delete is issued only for a user whose row shows the delete control; after a confirmed, ok delete the list is the old one filtered by id, so the other users keep their order, no user has that id and every other user remains; otherwise the list is unchanged |
| AdminPage.DeleteSparesAdmins | app/admin/page.tsx:202-207 | with unique user ids, no ADMIN shares the id of a user whose row shows the delete control, so a delete never removes an ADMIN |
| ClientPage.ComputeStats | app/client/page.tsx:105-111 | total is the number of requests; accepted, rejected and pending count their statuses, with any other status counted as pending; the three sum to total |
| EmployeePage.DashboardCounts | app/employee/page.tsx:47-49 | delivered counts the DELIVERED projects and is at most total; inProgress is non-negative and counts the others |
| EmployeePage.Recent | app/employee/page.tsx:76 | a prefix of at most five projects |
| EmployeePage.ProjectsList.ChangeStatus | app/employee/page.tsx:115-138 | on an ok response only the matching project's status changes, keeping length and order; on a failed one nothing changes |

## Left out

- Token signing and verification, password hashing and comparison are parameters. Token
  expiry is not modelled because the code signs without one. The round trip of verifying a
  freshly signed token is therefore not stated.
- `getCurrentUser` is not part of this model. It is a parameter giving the caller's claims or
  none.
- The e-mail format check of the register schema is a parameter.
- The project-update schema is not part of this model. Its parse result is a parameter of the
  employee project PUT.
- Store failures that no input causes are not modelled: connection loss, and a failure inside
  hashing or the insert of a registration. The catch branches are modelled where an input
  leads to them: non-string fields, unknown ids, foreign keys, a missing client record.
- MessagesApi.ListConversations does not model the store's sort. The caller's messages arrive
  as a parameter, and newest-first order is a premise of Conversations.GroupNewestFirst.
- Contacts.ContactsByEmail uses code-point order for `orderBy: {email: "asc"}`. The store's
  collation is not modelled.
- EmployeeApi.ListEmployeeProjects takes the project status values from the status enumeration
  the admin project update validates against (app/api/admin/projects/[projectId]/route.ts:24).
  The store's own schema is not part of this model.
- EmployeeApi.UpdateProjectStatus uses the same status values. A status outside them is
  answered 500, as the store's refusal of the value would be. Whether the update schema
  refuses it first with a 400 is not modelled, because that schema is not part of this model.
- Request bodies are maps from field names to JSON values. Non-object bodies, bodies that fail
  to parse, and fractional numbers are not modelled.
- Common.ToLower: `toLowerCase` and `toUpperCase` are ASCII-only. Unicode case mapping is not
  modelled.
- Schemas.ParseRegister: the length check counts characters, whereas zod counts UTF-16 code
  units.
- MessagePanel.ByTime is proved sorted and a permutation. Stability of the sort is not
  stated.
- Dates are integers. `toLocaleString`, `Date` parsing and the employee `joinedDate` clock
  are parameters.
- Page state the modelled operations do not touch is left out. This covers loading and error
  flags, toasts, scrolling, the delete spinner and the confirm dialog's text; the delete
  confirmation is a boolean.
- The 400 message of the register route is zod's error text, which is not modelled.
- The admin project transaction, the plain list routes, the profile routes, logout, me, and
  the login page are outside this model.

## Findings

| source | as written | input that shows it | evidently intended | confidence | as-written member | corrected member |
|---|---|---|---|---|---|---|
| middleware.ts:25-31 | an API path passes only under /api/profile or /api/<role>, so the messaging API under /api/messages is refused with 403 for every role | any valid token of any role on /api/messages or /api/messages/contacts | every authenticated role reaches the messaging API: the contacts route answers each of the three roles its own list of people to message (app/api/messages/contacts/route.ts:12-20), and the employee dashboard mounts the messaging panel that calls both routes (app/employee/page.tsx:266) | not executed | Gate.MessagingApiForbidden | Gate.SharedMiddleware |

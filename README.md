# Task tracker: request decisions and client state, modelled in Dafny

This project models the decision and state logic of a personal task
tracker: an Express/Mongoose REST API in which each user manages a
private list of tasks, and a React client that keeps a session, guards its
pages and drives a three-column board.

What is modelled, file by file:

- **Task handlers** (`task_controller.dfy`, `task_query.dfy`). The task
  collection is a map from id to document held by the class `TaskStore`.
  The single-task handlers (get, update, delete) run a guard first: 404
  "Task not found" when the id is absent, whoever asks, then 401 when the
  stored `userId` is not the requester. A rejected request leaves the
  collection unchanged. An owner's update overwrites the body's fields in
  that one task and returns the result. An owner's delete removes exactly
  that task and answers `data: {}`. Create answers 400 with the validation
  errors, or stores the body under a fresh id with the requester as owner.
  Listing copies the query and drops `select`, `sort`, `page` and `limit`
  in a loop. It then forces `userId` to the requester, so the filter
  always scopes the list to the requester. The sort string is the `sort`
  parameter with commas turned into spaces, or `-created_at` by default.
  The ordering itself is modelled too: lexicographic on the listed fields,
  with `-` meaning descending.
- **Profile handlers** (`user_controller.dfy`). The class `UserStore`
  holds a map from user id to record. Every handler is keyed only on the
  requester's id. A profile update writes only `name` and `email`.
- **Signup input rules** (`auth_routes.dfy`). The signup route checks
  three fields on their own: a non-empty name, an email accepted by an
  email predicate (a parameter here), and a password of at least 6
  characters. The login route has no checks.
- **HTTP client** (`api_client.dfy`). The base URL falls back to a fixed
  address when the environment sets none. The request interceptor
  attaches `Authorization: Bearer <token>` (section 2.1 of RFC 6750) in
  place when a token is stored.
- **Session** (`auth_context.dfy`). The class `AuthProvider` holds the
  user, the loading flag and the stored token. Its methods are start-up,
  login, signup, logout and profile update. Each API reply is a
  parameter. Each method returns the requests it sent, with the header
  each one carried.
- **Routing** (`app_routes.dfy`). `ProtectedRoute` chooses between
  loading, redirecting and rendering. The route table is also modelled.
- **Board** (`kanban_board.dfy`). It covers the three columns and their
  counts, the drag-end rule and the confirmation-gated delete.
- **Dashboard** (`dashboard.dfy`). The class `DashboardState` holds the
  filter, the tasks, the loading flag and the modal's form. Its methods
  are the page's handlers. Each of them keeps the invariant that a task is
  marked as being edited only while the modal is open.
- `text.dfy` holds JavaScript's `split`/`join` and string truthiness, and
  `wrappers.dfy` holds `Option`.

Some behaviours of the code are worth stating plainly, because a reader
might expect otherwise. The model follows the code in each case:

- A request for another user's task is refused with 401 (section 15.5.2
  of RFC 9110), not 403 Forbidden (section 15.5.4), although the
  requester is authenticated.
- `updateTask` passes the request body to the update unfiltered, so an
  owner can reassign a task by sending a new `userId`.
- `deleteUser` removes only the user record. The Profile page's
  confirmation (frontend/src/pages/Profile.jsx:28) warns that all the
  user's tasks are deleted too, but the handler leaves them in place.
- `getMe` for an id with no record answers 200 with `data: null`. The
  client's session then keeps the token but has no user.
- Route paths match without regard to ASCII case and ignore trailing
  slashes, as the router does, so `/Dashboard/` is the dashboard.

## Model

| member | source | states |
|---|---|---|
| Text.Split | backend/src/controllers/task.controller.js:27 | `split` yields at least one part and no part holds the separator |
| Text.JoinSplitReplaces | backend/src/controllers/task.controller.js:27 | `s.split(',').join(' ')` replaces each comma of `s` by a space and changes nothing else |
| Text.JoinSplitRoundTrip | backend/src/controllers/task.controller.js:27 | joining the split parts with the same separator gives back the original string |
| Text.SplitJoinRoundTrip | backend/src/controllers/task.controller.js:27 | parts free of the separator, joined and split again, are the same parts |
| Text.FirstPartIsPrefixBefore | frontend/src/pages/Dashboard.jsx:50 | `s.split(c)[0]` is the longest prefix of `s` holding no `c` |
| TaskQuery.BuildFilter | backend/src/controllers/task.controller.js:12-21 | the loop that deletes the four paging keys and then sets `userId` yields exactly `FilterOf(query, requester)` |
| TaskQuery.FilterKeepsOtherKeys | backend/src/controllers/task.controller.js:12-21 | the filter drops `select`, `sort`, `page`, `limit`; keeps every other client key with its value; and holds the requester as `userId` whatever the client sent |
| TaskQuery.Matches | backend/src/controllers/task.controller.js:23 | a document matches an equality filter iff every (field, value) pair of the filter is one of the document's pairs |
| TaskQuery.MatchedBelongsToRequester | backend/src/controllers/task.controller.js:21-23 | every document the listing filter matches belongs to the requester |
| TaskQuery.SortSpec | backend/src/controllers/task.controller.js:26-31 | a non-empty `sort` becomes that string with commas replaced by spaces; an absent or empty one becomes `-created_at` |
| TaskQuery.KeyOf | backend/src/controllers/task.controller.js:28-30 | a token `-f` sorts on `f` descending and any other token on itself ascending; the token is recovered from the key |
| TaskQuery.KeysOf | backend/src/controllers/task.controller.js:28-30 | each sort key comes from a non-empty token; empty tokens give no key |
| TaskQuery.SortKeys | backend/src/controllers/task.controller.js:26-31 | the keys of a sort string: no field name holds a space, and a string of one token is one key |
| TaskQuery.DefaultSortIsNewestFirst | backend/src/controllers/task.controller.js:29-31 | with no `sort`, the listing is ordered by `created_at` descending and by nothing else |
| TaskQuery.CommaListOrdersByEachField | backend/src/controllers/task.controller.js:26-28 | a comma list `a,b` orders by `a`, then `b`, in the order given |
| TaskQuery.Sort | backend/src/controllers/task.controller.js:28-33 | the listed tasks come out as a permutation of the matches, in the order the sort keys ask for |
| TaskQuery.NewestFirst | backend/src/controllers/task.controller.js:30 | under the default order each task was created no earlier than the next one |
| TaskController.CheckAccess | backend/src/controllers/task.controller.js:50-65 | missing iff the id is absent; foreign iff present with another owner; owned iff present with the requester as owner |
| TaskController.MissingWhoeverAsks | backend/src/controllers/task.controller.js:50-58 | for an absent id every requester gets the same not-found outcome; existence is checked before ownership |
| TaskController.OnlyOwnerPasses | backend/src/controllers/task.controller.js:60-65 | two requesters both let through to the same task are the same user |
| TaskController.ApplyUpdate | backend/src/controllers/task.controller.js:120-123 | the updated task has each body field's value and every other field as it was |
| TaskController.UpdateMayChangeOwner | backend/src/controllers/task.controller.js:120 | a body naming `userId` hands the task to that user, since the body is not filtered |
| TaskController.UpdateIdempotent | backend/src/controllers/task.controller.js:120-123 | repeating the same update leaves the task as one update did |
| TaskController.TaskStore.Find | backend/src/controllers/task.controller.js:23 | the result holds every stored task that matches the filter, once each, and nothing else |
| TaskController.TaskStore.GetTasks | backend/src/controllers/task.controller.js:7-43 | 200 with `count` equal to the list length; the list holds exactly the requester's tasks matching the remaining query keys, once each, ordered by the sort parameter |
| TaskController.TaskStore.GetTask | backend/src/controllers/task.controller.js:48-74 | 404 for an absent id; 401 for another user's task; else 200 with the stored task |
| TaskController.TaskStore.CreateTask | backend/src/controllers/task.controller.js:79-96 | validation errors give 400 and store nothing; otherwise 201, and the body is stored under a fresh id with the requester as `userId` whatever the body said |
| TaskController.TaskStore.UpdateTask | backend/src/controllers/task.controller.js:101-132 | 404 or 401 leave the collection unchanged; the owner's body is applied to that task only, and the updated task is returned |
| TaskController.TaskStore.DeleteTask | backend/src/controllers/task.controller.js:137-165 | 404 or 401 leave the collection unchanged; the owner's request removes exactly that task, keeps every other, and answers `data: {}` |
| UserController.FieldsToUpdate | backend/src/controllers/user.controller.js:24-27 | the update carries `name` iff the body has it, and `email` iff the body has it, each with the body's value |
| UserController.OnlyNameAndEmailAreRead | backend/src/controllers/user.controller.js:24-27 | bodies that agree on `name` and `email` make the same update; a password or any other field is ignored |
| UserController.ApplyProfile | backend/src/controllers/user.controller.js:24-32 | the updated record takes the new name and email and keeps the password hash |
| UserController.ApplyProfileIdempotent | backend/src/controllers/user.controller.js:29-32 | repeating the same profile update gives the same record as one update |
| UserController.UserStore.GetMe | backend/src/controllers/user.controller.js:6-17 | 200 with the record stored under the requester's id, or `null` when there is none |
| UserController.UserStore.UpdateUserProfile | backend/src/controllers/user.controller.js:22-41 | only the requester's record changes, and only in name and email; the record after the update is returned |
| UserController.UserStore.DeleteUser | backend/src/controllers/user.controller.js:46-57 | the requester's record is removed, every other record stays, and the answer is 200 with `data: {}` |
| AuthRoutes.Errors | backend/src/routes/auth.routes.js:7-16 | signup collects one error per failed rule, in rule order; login collects none |
| AuthRoutes.SignupAcceptsIff | backend/src/routes/auth.routes.js:9-13 | signup has no errors iff the name is non-empty, the email passes the predicate and the password meets the length rule |
| AuthRoutes.EachRuleReportsItsOwnField | backend/src/routes/auth.routes.js:10-12 | "Name is required", "Please include a valid email" and the password message each appear iff their own rule fails; the password rule fails iff the password's code points, less presentation selectors, number fewer than 6 |
| AuthRoutes.ErrorsOfOneField | backend/src/routes/auth.routes.js:10-12 | the errors about one field are exactly its own rule's verdict |
| AuthRoutes.ChecksAreIndependent | backend/src/routes/auth.routes.js:9-13 | the errors about a field depend on that field's text alone |
| AuthRoutes.CountedLengthConcat | backend/src/routes/auth.routes.js:12 | the length `isLength` measures is additive over concatenation |
| AuthRoutes.CountedLengthPlain | backend/src/routes/auth.routes.js:12 | without the presentation selectors U+FE0E and U+FE0F, that length is the number of code points |
| AuthRoutes.PasswordBoundary | backend/src/routes/auth.routes.js:12 | a password free of presentation selectors passes the length rule iff it has at least 6 code points; `abcde` followed by U+FE0F counts 5 and fails |
| ApiClient.BaseUrl | frontend/src/api/axios.js:4-8 | the environment's URL when set and non-empty, the fixed fallback otherwise |
| ApiClient.BearerRoundTrip | frontend/src/api/axios.js:15 | the `Bearer <token>` value and the token determine each other |
| ApiClient.AuthorizationFor | frontend/src/api/axios.js:13-16 | a header is produced iff the token is truthy, and it carries that token in Bearer form |
| ApiClient.InterceptRequest | frontend/src/api/axios.js:11-18 | a truthy token sets `Authorization: Bearer <token>` in place; otherwise the headers are untouched; the call is unchanged and the same config is returned |
| ApiClient.OnRequestError | frontend/src/api/axios.js:19-21 | a request error is rejected with the same error |
| AuthContext.AuthProvider.constructor | frontend/src/context/AuthContext.jsx:7-8 | initially there is no user and loading is true |
| AuthContext.AuthProvider.Send | frontend/src/api/axios.js:11-18 | a request carries an `Authorization` value iff the stored token is truthy, and that value parses back to the stored token |
| AuthContext.AuthProvider.CheckUser | frontend/src/context/AuthContext.jsx:10-25 | no truthy token: nothing is fetched and the user is unchanged; a failed profile fetch removes the token and clears the user; a successful one makes the returned data the user, so `null` data leaves no user and keeps the token; loading ends in every case |
| AuthContext.AuthProvider.Authenticate | frontend/src/context/AuthContext.jsx:27-41 | a failed post sends nothing more, changes nothing and rejects with the same error; otherwise the token is stored before the profile fetch, so the fetch carries it, and the fetched data (possibly `null`) becomes the user |
| AuthContext.AuthProvider.Login | frontend/src/context/AuthContext.jsx:27-33 | login posts email and password; a failed post stops there and changes nothing; otherwise it stores the token, fetches the profile with it and makes the returned data the user |
| AuthContext.AuthProvider.Signup | frontend/src/context/AuthContext.jsx:35-41 | signup posts the user data; a failed post stops there and changes nothing; otherwise it stores the token, fetches the profile with it and makes the returned data the user |
| AuthContext.AuthProvider.Logout | frontend/src/context/AuthContext.jsx:43-46 | the token is removed and the user cleared; later requests carry no credentials |
| AuthContext.AuthProvider.UpdateUser | frontend/src/context/AuthContext.jsx:48-52 | the user becomes the server's returned data, no user when it is `null`; a failed update keeps the user; the token is untouched |
| AppRoutes.ProtectedRoute | frontend/src/App.jsx:10-17 | the loading screen shows iff loading, whatever the user; the redirect to `/login` iff settled with no user; the wrapped page iff settled with a user |
| AppRoutes.NormalizeMatches | frontend/src/App.jsx:26-46 | a path's normal form is a route path iff the path matches it as the router does: equal up to ASCII case, then only slashes |
| AppRoutes.NormalizeIdempotent | frontend/src/App.jsx:26-46 | normalizing a path twice gives what normalizing once gives |
| AppRoutes.RouteElement | frontend/src/App.jsx:26-46 | a path has an element iff its normal form is one of the five route paths |
| AppRoutes.RouteOfNormalForm | frontend/src/App.jsx:26-46 | a path and its normal form reach the same element |
| AppRoutes.Render | frontend/src/App.jsx:26-46 | a path renders something iff the route table matches it |
| AppRoutes.ProtectedPagesNeedUser | frontend/src/App.jsx:10-17 | the dashboard and profile pages are shown only to a signed-in user once loading is over |
| AppRoutes.ProtectedRoutes | frontend/src/App.jsx:27-44 | exactly the paths that match `/dashboard` or `/profile` are wrapped in `ProtectedRoute`; those that match `/login` or `/signup` show their page unwrapped |
| AppRoutes.PublicPagesAlwaysRender | frontend/src/App.jsx:27-28 | the login and signup pages render whatever the session |
| AppRoutes.RootLeadsToDashboardOrLogin | frontend/src/App.jsx:45 | `/` redirects to `/dashboard`, which shows the board to a user and sends anyone else to the login page |
| KanbanBoard.ColumnOrder | frontend/src/components/KanbanBoard.jsx:6-10 | the columns are pending, in-progress and completed, in that order |
| KanbanBoard.InColumn | frontend/src/components/KanbanBoard.jsx:67-68 | a column shows a task iff the task's status equals the column's id; it shows each such task as many times as the list holds it, and in list order |
| KanbanBoard.FullColumn | frontend/src/components/KanbanBoard.jsx:56 | a column holds the whole list iff every task has its status |
| KanbanBoard.ColumnCount | frontend/src/components/KanbanBoard.jsx:56 | a header count is at most the number of tasks, zero iff no task has the column's status, and the whole list iff every task has it |
| KanbanBoard.CountsPartitionTasks | frontend/src/components/KanbanBoard.jsx:56 | the three header counts plus the tasks in no column add up to the number of tasks |
| KanbanBoard.ColumnsAreDisjoint | frontend/src/components/KanbanBoard.jsx:67-68 | no task is shown in two columns |
| KanbanBoard.Find | frontend/src/components/KanbanBoard.jsx:21 | `find` yields nothing iff no task has the id, and otherwise the first task with it |
| KanbanBoard.OnDragEnd | frontend/src/components/KanbanBoard.jsx:13-32 | a drop with no destination, one back in place, or one of an unknown task sends nothing; any other drop sends only `status := destination column`; the list refreshes iff the update succeeded |
| KanbanBoard.StatusUpdate | frontend/src/components/KanbanBoard.jsx:25 | a drop's update body has the single field `status`, set to the destination column's id |
| KanbanBoard.ReorderSendsSameStatus | frontend/src/components/KanbanBoard.jsx:17-25 | reordering a card within the column that shows it sends the task's current status, so the status does not change |
| KanbanBoard.MoveChangesStatus | frontend/src/components/KanbanBoard.jsx:17-25 | dropping a card on another column sends that column's id, which differs from the task's current status |
| KanbanBoard.DeleteTask | frontend/src/components/KanbanBoard.jsx:34-43 | the delete goes out iff the user confirms; success refreshes, failure alerts |
| Dashboard.FetchUrl | frontend/src/pages/Dashboard.jsx:16 | the list URL is under `/tasks`; it is `/tasks` itself iff the filter is `all`; any other filter is carried as `?status=<filter>`, which reads back as the query `status=<filter>`; for each drop-down value the server's parser reads it the same way |
| Dashboard.FilterOptionsArePlain | frontend/src/pages/Dashboard.jsx:74-79 | every drop-down value consists of characters the query parser takes literally, so inserting it unencoded is safe |
| Dashboard.FilterReachesServer | frontend/src/pages/Dashboard.jsx:16 | under the server's scoping, every task listed for a drop-down filter belongs to the requester and, unless the filter is `all`, has that status |
| Dashboard.DatePart | frontend/src/pages/Dashboard.jsx:50 | the due date is cut at its first `T`: a prefix without `T`, followed by `T` or the end |
| Dashboard.DashboardState.constructor | frontend/src/pages/Dashboard.jsx:7-12 | the filter is `all`, no tasks, loading, modal closed, nothing edited, empty form with status `pending` |
| Dashboard.DashboardState.FetchTasks | frontend/src/pages/Dashboard.jsx:14-24 | fetches the filter's URL; a success replaces the tasks and a failure keeps them; loading ends either way |
| Dashboard.DashboardState.ChangeFilter | frontend/src/pages/Dashboard.jsx:26-28 | a drop-down value is stored as the filter and the list fetched again for it; the filter is always a drop-down value |
| Dashboard.DashboardState.OpenNewTaskModal | frontend/src/pages/Dashboard.jsx:81 | the "New Task" button opens the modal |
| Dashboard.DashboardState.OpenEditModal | frontend/src/pages/Dashboard.jsx:45-54 | the form copies title, description and status and the date part of the due date; the task is marked as edited and the modal opens |
| Dashboard.DashboardState.CloseModal | frontend/src/pages/Dashboard.jsx:56-60 | the modal flag, the edited task and the form go back to their defaults |
| Dashboard.DashboardState.HandleCreateTask | frontend/src/pages/Dashboard.jsx:30-43 | PUT to the edited task when editing, POST `/tasks` otherwise; success closes the modal and fetches again; failure alerts with the action's name and changes no state |

## Left out

- Password hashing, token issuing and verification, and the `protect`
  middleware are not part of this model. Every backend handler takes the
  authenticated requester id as a parameter, because `protect` puts it
  there.
- The Task and User schemas are not part of this model: their defaults
  (`created_at`, the default status), required fields, `runValidators`
  checks, unique email and hidden password field, and strict mode, by
  which Mongoose discards body keys outside the schema on create and
  update and query keys outside it in a filter. The model stores and
  filters on every key.
- TaskController.TaskStore.CreateTask: stores the body with the owner set
  and no schema defaults or validation. The fresh id is a parameter
  because MongoDB assigns it.
- TaskController.TaskStore.UpdateTask: schema validation failures
  (`runValidators`) are not modelled. The same goes for a task deleted
  between the lookup and the update.
- UserController.UserStore.UpdateUserProfile: validator or duplicate-email
  failures are not modelled. A body field that is absent is dropped from
  the update rather than written as null, as in Mongoose 6 and later.
- UserController.UserStore.DeleteUser: no cascade to the user's tasks,
  since none is visible in the handler.
- Errors that a handler passes to `next(err)` are not modelled: database
  failures and malformed ids.
- `validationResult(req)` in `createTask` is taken as a list of error
  messages. No validators are attached to the task routes, so in practice
  that list is empty.
- TaskQuery.SortKeys: a sort string is split on spaces only, not on other
  whitespace. A field named twice is not merged as Mongoose would merge
  it. Ties keep no particular order, as in MongoDB.
- TaskQuery.Matches: query values are plain strings. Operator objects such
  as `status[$ne]=x` and array-valued fields are not modelled, and values
  are compared as strings, with dates ordered by their ISO text.
- TaskController.TaskStore.Find: documents are matched on their stored
  fields. Filtering on `_id` and type casting are not modelled.
- AuthRoutes.Errors: `isEmail` is an uninterpreted predicate. Non-string
  field values (numbers, arrays) are not modelled.
- Network, `localStorage` and React rendering are not modelled. Replies
  are parameters and the stored token is a field. A promise that the
  client never awaits is taken to settle in the order the code starts it.
- `window.confirm` and `alert` are booleans and returned strings.
  `console.error` is dropped.
- AppRoutes.RouteElement: paths are matched on their text after case
  folding and slash trimming; percent-decoding of the location and
  repeated slashes inside a path are not modelled.
- Dashboard.QueryOf: reads everything after `?status=` as the one
  value; for a value holding `&`, `=`, `#`, `%` or `+` the server's query
  parser reads something else. The filter never holds one, since it is
  always a drop-down value.
- Markup, CSS, icons, the drag-and-drop library and the locale-dependent
  date display are not modelled. Navbar, Login, Signup and Profile are
  not part of this model.
- Express wiring, server start-up and the database scripts are not part of
  this model.

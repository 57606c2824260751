# Task and project backend: a verified model

This project models the request-handling core of a small Express/Prisma backend for users, projects and tasks:

- session tokens carried in the `jwtToken` cookie;
- the `authenticateUser` and `authorizeRole` middlewares;
- the zod request schemas;
- the handlers of the auth, user, project, task and filter controllers;
- the route tables, with the order in which they are registered.

The database becomes an in-memory `Store` class. It holds one map per table (users, projects, tasks). Each handler that writes is a module-level method that takes the `Store` as its `db` argument. It returns the response status and payload and updates the store's maps in place. Read-only handlers are functions over the maps, except `filterTasks`, a method that reads the store and takes the database's row order as an argument. The libraries the core calls but does not implement are function values passed in by the caller: token signing and verification (`Foreign.Jwt`), password hashing (`Foreign.Bcrypt`) and the email format check (`Foreign.EmailCheck`). Every property a proof needs of them is a `requires` of that proof. For example, a sign-in round trip needs "verification returns what was signed".

The model follows the code, including where it departs from the usual conventions for such an API:

- `updateProject` and `createTask` answer 500, not 400, to a body that fails validation. Neither has a zod-error branch.
- `createTask` reports a missing project as 400, not 404.
- A role refusal is 401, not 403.
- No project or task handler checks ownership.

Modules follow the source files:

- `Auth`: `src/lib/auth.ts`.
- `Authentication`, `Authorization`: the two middlewares.
- `AuthValidator`, `UserValidator`, `ProjectValidator`, `TaskValidator`: the zod schemas, built from the `Schema` helper module.
- `AuthController`, `UserController`, `ProjectController`, `TaskController`, `FilterController`: the controllers.
- `AuthRoutes`, `UserRoutes`, `ProjectRoutes`, `TaskRoutes`, `FilterRoutes`: the route files, over the shared `Router`.
- `App`: the mount table of `src/index.ts`.
- `Types`, `Database`, `Http`, `Foreign`, `Basics`: shared data.

## Model

| member | source | states |
|---|---|---|
| `Types.ParseProjectStatus` | src/validators/projectValidator.ts:15 | accepts exactly the three names PLANNED, ONGOING, COMPLETED, and the status it returns is spelled as the input |
| `Types.ProjectStatusRoundTrip` | src/validators/projectValidator.ts:15 | every project status parses back from its name |
| `Types.ParseTaskStatus` | src/validators/taskValidator.ts:19 | accepts exactly TODO, IN_PROGRESS, DONE, and the status it returns is spelled as the input |
| `Types.TaskStatusRoundTrip` | src/validators/taskValidator.ts:19 | every task status parses back from its name |
| `Http.Response.SetCookie` | src/controllers/authController.ts:20-25 | the response's cookie headers gain exactly the named cookie with its value and options |
| `Http.Response.ClearCookie` | src/controllers/authController.ts:40-44 | the response's cookie headers gain exactly a clearing header for the named cookie |
| `Auth.JwtSecret` | src/lib/auth.ts:4 | the secret is the environment value when that is set and non-empty, otherwise the fixed fallback; it is never empty |
| `Auth.GenerateToken` | src/lib/auth.ts:6-8 | the token is the signature, under the secret, of exactly the caller-supplied claims userId and role, and of no other caller-supplied claim; the issue and expiry claims the signer adds are not modelled |
| `Auth.VerifyToken` | src/lib/auth.ts:10-12 | the payload is the verifier's answer for the token under the same secret; a token that fails verification gives nothing |
| `Auth.GetDataFromRequest` | src/lib/auth.ts:14-25 | a missing or empty `jwtToken` cookie gives nothing; otherwise the result is the verifier's answer, nothing when verification fails |
| `Auth.GeneratedTokenDecodes` | src/lib/auth.ts:6-21 | if verification inverts signing, a cookie holding `generateToken(u, r)` decodes to exactly userId `u` and role `r` |
| `Authentication.AuthenticateStep` | src/middlewares/authenticateUser.ts:11-22 | `next` is called if and only if a payload was decoded; without one the answer is 401 and `req.user` is untouched; with one `req.user` is its userId and role |
| `Authentication.AuthenticateUser` | src/middlewares/authenticateUser.ts:5-26 | only `req.user` may change, and the gate and new `req.user` are those of `AuthenticateStep` on the request's cookies |
| `Authentication.SignedInRequestPasses` | src/middlewares/authenticateUser.ts:11-22 | a request carrying the cookie issued at sign-in passes, with `req.user` set to the identity and role the token was issued for |
| `Authentication.NoCookieRejected` | src/middlewares/authenticateUser.ts:13-15 | without a `jwtToken` cookie the middleware answers 401 |
| `Authorization.AuthorizeRole` | src/middlewares/authorizeRole.ts:3-11 | `next` is called if and only if `req.user` is present and its role is in the allow-list; every refusal is 401 "Unauthorized access" |
| `Authorization.AuthorizeRoleMonotone` | src/middlewares/authorizeRole.ts:5 | a session admitted by an allow-list is admitted by every list that contains it |
| `Authorization.EmptyAllowListRejects` | src/middlewares/authorizeRole.ts:5-6 | an empty allow-list refuses every request, with or without a user |
| `Authorization.AdminListRejectsUser` | src/middlewares/authorizeRole.ts:5-9 | the `["ADMIN"]` list refuses a USER session and admits an ADMIN session |
| `AuthValidator.ParseSignUp` | src/validators/authValidator.ts:3-13 | accepts exactly when name has at least 2 characters, email passes the email check, password has at least 6 and confirmPassword equals password; the data returned is the input fields; a mismatch alone is reported once on the `confirmPassword` path |
| `AuthValidator.ParseSignIn` | src/validators/authValidator.ts:15-18 | accepts exactly when email passes the email check and password has at least 6 characters, returning those two fields |
| `AuthValidator.SignUpImpliesSignIn` | src/validators/authValidator.ts:3-18 | a body accepted at sign-up is accepted at sign-in with the same email and password |
| `AuthValidator.PasswordBoundary` | src/validators/authValidator.ts:7-17 | a 5-character password is refused and a 6-character one accepted by both schemas |
| `UserValidator.ParseUserChange` | src/validators/userValidator.ts:3-6 | accepts exactly when name has at least 2 characters and email passes the check, returning the name and email unchanged; a short name or bad email is always refused, on its own path |
| `UserValidator.SignUpFieldsPassUserChange` | src/validators/userValidator.ts:4-5 | the name and email of any valid sign-up pass the profile-change schema |
| `ProjectValidator.ParseProject` | src/validators/projectValidator.ts:3-8 | accepts exactly when name has at least 2 and description at least 4 characters; the result carries no status |
| `ProjectValidator.ParseProjectUpdate` | src/validators/projectValidator.ts:10-16 | accepts exactly when, in addition, the status is one of the three project statuses; any other status string is refused |
| `ProjectValidator.UpdateImpliesCreate` | src/validators/projectValidator.ts:3-16 | an accepted update carries a name and description the create schema accepts |
| `TaskValidator.ParseTask` | src/validators/taskValidator.ts:3-10 | accepts exactly when the title has 1 to 255 characters, the description at least 6 and assignedUserId at least 1, returning those fields |
| `TaskValidator.ParseTaskUpdate` | src/validators/taskValidator.ts:12-20 | accepts exactly when the same holds and the status is one of the three task statuses |
| `TaskValidator.UpdateImpliesCreate` | src/validators/taskValidator.ts:3-20 | an accepted update passes the create schema with the same title, description and assignee |
| `TaskValidator.TitleBoundary` | src/validators/taskValidator.ts:6-18 | a 255-character title passes and a 256-character one does not; an empty assignedUserId fails both schemas |
| `UserController.CreateUser` | src/controllers/userController.ts:8-38 | a bad body is 400 with its issues; an email already stored is 400 "User already exists"; both leave the store unchanged; otherwise 201 and exactly one user is added, with the given name and email, the hash of the password and role USER; email uniqueness is preserved |
| `UserController.ListUsers` | src/controllers/userController.ts:40-53 | 200 with exactly the stored users whose role is not ADMIN |
| `UserController.UpdateAnyUser` | src/controllers/userController.ts:55-80 | the body is validated before the lookup (400); an unknown id is 404; both leave the store unchanged; otherwise only that user's name and email change, with its password and role kept, and the updated row is returned |
| `UserController.UpdateUser` | src/controllers/userController.ts:82-109 | the body is validated first (400); then a missing or empty session id is 401; a session user not in the store is 500; otherwise only the session user's name and email change |
| `UserController.DeleteAnyUser` | src/controllers/userController.ts:111-124 | an unknown id is 404 with the store unchanged; otherwise exactly that user is removed, so a repeated delete is 404 |
| `UserController.DeleteUser` | src/controllers/userController.ts:126-136 | the session user is removed; a missing session or a user already gone is 500 with the store unchanged |
| `UserController.GetUser` | src/controllers/userController.ts:138-147 | 200 with the user stored under the id parameter, or with null; without an id parameter, 500 |
| `AuthController.SessionCookieOptions` | src/controllers/authController.ts:20-25 | the session cookie is HTTP-only, same-site strict, secure exactly in production, and lives 86 400 000 ms |
| `AuthController.ClearCookieOptions` | src/controllers/authController.ts:40-44 | the clearing header carries the session cookie's HTTP-only, same-site and secure attributes, without a lifetime |
| `AuthController.SignIn` | src/controllers/authController.ts:8-36 | a bad body is 400 and sets no cookie; an unknown email and a wrong password give the same 401 "Invalid credentials" and set no cookie; 200 carries only a message and sets `jwtToken` to `generateToken(id, role)` of a user whose credentials match; when the email is held once, 200 happens exactly when credentials match; the store is not changed |
| `AuthController.SignOut` | src/controllers/authController.ts:38-51 | always 200, and the `jwtToken` cookie is cleared |
| `AuthController.SignUpThenSignIn` | src/controllers/authController.ts:13-27 | after a successful registration, sign-in with the same email and password is 200, and its cookie decodes to the new user with role USER |
| `ProjectController.CreateProject` | src/controllers/projectController.ts:9-38 | a bad body is 400; a session without an id, or whose user is not stored, is 404; both create nothing; otherwise 201 with one new project owned by the session user, with the body's name and description |
| `ProjectController.ListProjects` | src/controllers/projectController.ts:40-47 | 200 with every stored project |
| `ProjectController.GetProject` | src/controllers/projectController.ts:49-61 | 404 for an unknown id, otherwise 200 with the stored project |
| `ProjectController.GetUserProjects` | src/controllers/projectController.ts:63-81 | 404 without a session id; otherwise 200 with exactly the projects whose owner is the session user |
| `ProjectController.UpdateProject` | src/controllers/projectController.ts:83-108 | validation comes before the lookup, and a bad body is 500; an unknown id is 404; both leave the store unchanged; otherwise name, description and status are overwritten and the owner is kept |
| `ProjectController.DeleteProject` | src/controllers/projectController.ts:110-125 | 404 for an unknown id with the store unchanged; otherwise exactly that project is removed |
| `ProjectController.CreateGetDelete` | src/controllers/projectController.ts:27-121 | a created project read back by id has the name and description sent; deleting it twice gives 200 then 404 |
| `TaskController.CreateTask` | src/controllers/taskController.ts:8-49 | a missing project is 400, checked before the body; a bad body is 500; a missing assignee is 400; all three create nothing; otherwise 201 with one new task under the path's project, with the body's title, description and assignee |
| `TaskController.ListTasksForProject` | src/controllers/taskController.ts:51-77 | 400 for a missing project; otherwise 200 with exactly the tasks under it |
| `TaskController.UpdateTask` | src/controllers/taskController.ts:79-115 | an unknown task is 404, checked before the body; a bad body is 500; both leave the store unchanged; otherwise title, description, assignee and status are overwritten and the project is kept |
| `TaskController.DeleteTask` | src/controllers/taskController.ts:117-142 | 404 for an unknown task with the store unchanged; otherwise exactly that task is removed and the others are kept |
| `FilterController.FilterOf` | src/controllers/filterController.ts:29-37 | the filter constrains the assignee exactly when the parameter is non-empty, to its value; it constrains the status only when a non-empty status was given, and a given valid status is always applied, as the status of that name |
| `FilterController.MatchRule` | src/controllers/filterController.ts:20-37 | for a query whose status, if given, is valid: a task matches if and only if its status is the one named (when given) and its assignee is the one named (when given) |
| `FilterController.EmptyParametersMatchAll` | src/controllers/filterController.ts:29-37 | absent or empty parameters add no constraint: every task matches |
| `FilterController.Matching` | src/controllers/filterController.ts:42-50 | every id returned is a stored task that matches the filter, and there are no more ids than rows |
| `FilterController.MatchingMembers` | src/controllers/filterController.ts:42-50 | an id is among the matches if and only if it is a stored task whose status and assignee satisfy the filter |
| `FilterController.MatchingCount` | src/controllers/filterController.ts:52-54 | the number of matches is the number of matching tasks in the table, whatever skip and take are |
| `FilterController.Page` | src/controllers/filterController.ts:42-50 | the page holds the matches from position `skip` on, at most `take` of them, in order |
| `FilterController.TotalPages` | src/controllers/filterController.ts:56 | the fewest pages of `take` tasks that hold all the matches (the ceiling of total / take) |
| `FilterController.CurrentPage` | src/controllers/filterController.ts:57 | the page on which offset `skip` falls (the floor of skip / take, plus one) |
| `FilterController.PaginationExamples` | src/controllers/filterController.ts:56-57 | 25 tasks at 10 per page make 3 pages; skip 0 is page 1 and skip 20 is page 3 |
| `FilterController.FilterTasks` | src/controllers/filterController.ts:4-73 | an assignee that names no user is 404, checked before the status; a non-empty status outside the three names is 400; otherwise 200 with the page of matches, the total match count and the page figures; skip and take default to 0 and 10; the store is only read |
| `Router.PatternParams` | src/routes/taskRoutes.ts:12-15 | a path matches if and only if it has the pattern's length, each literal equals its segment and each `:name` segment is non-empty; the parameters bound are exactly the pattern's names, each to the segment at its position |
| `Router.FirstMatchFrom` | src/routes/userRoutes.ts:16-27 | the route chosen from the `k`-th on matches, and none between the `k`-th and it does; with no choice none from the `k`-th on matches |
| `Router.RunChain` | src/routes/userRoutes.ts:16-27 | an empty chain passes `req.user` on; a chain stops only with one of the two middleware 401s; a chain of role checks alone passes `req.user` on exactly when it is present and its role is on every list, otherwise 401 "Unauthorized access"; authentication followed by role checks, with a decoded payload, passes the token's session exactly when its role is on every list, otherwise 401 "Unauthorized access"; without a decoded payload it stops with 401 "Unauthorized: Invalid token"; a passing chain containing authentication always hands on a user |
| `Router.FirstMatch` | src/routes/userRoutes.ts:24-27 | the route chosen matches, and no route registered before it does; with no choice no route matches |
| `Router.Resolve` | src/routes/userRoutes.ts:16-27 | no route matches exactly when the first-match search finds none; otherwise the request is rejected exactly when the chosen route's chain stops, with that chain's status and message, and a dispatched request runs the chosen route's handler with that route's parameters and the `req.user` its chain hands on |
| `Router.SessionChain` | src/routes/taskRoutes.ts:12-15 | the chain `[authenticateUser]` passes a request with a valid token, with `req.user` set to the token's userId and role |
| `Router.AdminChain` | src/routes/userRoutes.ts:16-19 | the chain `[authenticateUser, authorizeRole(["ADMIN"])]` passes an ADMIN session and stops a USER session with 401 "Unauthorized access" |
| `Router.UnauthenticatedRejected` | src/routes/projectRoutes.ts:16-22 | in a table whose every chain starts with authentication, a request without a valid session that matches a route gets the middleware's 401 before any handler; one that matches no route falls through |
| `Router.AuthenticatedOnlyDispatch` | src/routes/taskRoutes.ts:12-15 | a route guarded by authentication alone runs its handler with the session of the token, whatever its role |
| `Router.AdminChainDecision` | src/routes/userRoutes.ts:16-22 | a route guarded by authentication and the ADMIN list runs its handler for an ADMIN session and answers 401 to a USER session |
| `AuthRoutes.Routes` | src/routes/authRoutes.ts:7-9 | no auth route has any middleware |
| `AuthRoutes.Endpoints` | src/routes/authRoutes.ts:7-9 | `POST /signup`, `POST /signin` and `GET /signout` reach createUser, signIn and signOut whatever the cookies |
| `AuthRoutes.NeverRejected` | src/routes/authRoutes.ts:7-9 | no request to this router is refused by a middleware |
| `AuthRoutes.SingleSegmentsOnly` | src/routes/authRoutes.ts:7-9 | a path with other than one segment matches no auth route |
| `UserRoutes.Routes` | src/routes/userRoutes.ts:16-27 | every user route authenticates first |
| `UserRoutes.AdminEndpoints` | src/routes/userRoutes.ts:16-22 | `PUT /:id` and `DELETE /:id` run updateAnyUser and deleteAnyUser for an ADMIN session; a USER session gets 401 and no handler runs |
| `UserRoutes.SelfEndpoints` | src/routes/userRoutes.ts:24-26 | `GET`, `PUT` and `DELETE /` run listUsers, updateUser and deleteUser for any session, with no role check |
| `UserRoutes.GetUserUnreachable` | src/routes/userRoutes.ts:24-27 | the second `GET /` is shadowed by the first, so getUser never runs |
| `UserRoutes.UnauthenticatedRejected` | src/routes/userRoutes.ts:16-27 | without a valid session every user route answers 401 before its handler |
| `ProjectRoutes.Routes` | src/routes/projectRoutes.ts:16-22 | every project route authenticates first |
| `ProjectRoutes.AllIsAdminListing` | src/routes/projectRoutes.ts:16 | `GET /all` runs listProjects for an ADMIN session and answers 401 to a USER session |
| `ProjectRoutes.AllNeverReachesGetProject` | src/routes/projectRoutes.ts:16-19 | `/all`, registered before `/:id`, never reaches getProject |
| `ProjectRoutes.CollectionEndpoints` | src/routes/projectRoutes.ts:18-20 | `POST /` and `GET /` run createProject and getUserProjects for any session |
| `ProjectRoutes.ItemEndpoints` | src/routes/projectRoutes.ts:19-22 | `GET /:id` (for any id but `all`), `PUT /:id` and `DELETE /:id` (for every id, `all` included) run getProject, updateProject and deleteProject for any session, with no role or owner check |
| `ProjectRoutes.ItemEndpoint` | src/routes/projectRoutes.ts:19-22 | a `/:id` route that is the first match runs its handler with `id` bound, for any session |
| `ProjectRoutes.UnauthenticatedRejected` | src/routes/projectRoutes.ts:16-22 | without a valid session every project route answers 401 before its handler |
| `TaskRoutes.Routes` | src/routes/taskRoutes.ts:12-15 | every task route authenticates first |
| `TaskRoutes.SessionOnlyEndpoints` | src/routes/taskRoutes.ts:12-15 | the four task endpoints run their handlers for a USER and an ADMIN session alike, with the path parameters bound |
| `TaskRoutes.CreateTaskEndpoint` | src/routes/taskRoutes.ts:12 | `POST /:projectId/tasks` runs createTask with `projectId` bound, for any session |
| `TaskRoutes.UnauthenticatedRejected` | src/routes/taskRoutes.ts:12-15 | without a valid session every task route answers 401 and no task handler runs |
| `FilterRoutes.Routes` | src/routes/filterRoutes.ts:7-8 | the filter route authenticates first |
| `FilterRoutes.Endpoint` | src/routes/filterRoutes.ts:8 | `GET /tasks` runs filterTasks for any session, with no role check, and answers 401 without one |
| `App.Mounts` | src/index.ts:15-18 | as registered: auth, users and projects, then the auth router again under `/tasks`; no mount holds the task router or the filter router |
| `App.IntendedMounts` | src/index.ts:15-18 | the first three mounts as registered, then the task router under `/tasks` and the filter router under `/filters`; no two mounts share a prefix |
| `App.ResolveFrom` | src/index.ts:15-18 | from the `k`-th mount on: a path under none of the prefixes is NoRoute; when the prefixes are distinct, the router mounted under the path's first segment answers, with the rest of the path; any answer came from such a router |
| `App.ResolveApp` | src/index.ts:15-18 | the whole table: a path under no mounted prefix is NoRoute, and when the prefixes are distinct the router mounted under the path's first segment answers, with the rest of the path |
| `App.SkipMount` | src/index.ts:15-18 | a mount whose prefix differs from the path's first segment passes the request on to the next mount |
| `App.TaskEndpointUnmounted` | src/index.ts:18 | as mounted, `POST /tasks/:projectId/tasks` matches no route |
| `App.FilterEndpointUnmounted` | src/index.ts:15-18 | as mounted, `GET /filters/tasks` matches no route |
| `App.TasksPrefixSignsUp` | src/index.ts:18 | as mounted, `POST /tasks/signup` reaches createUser without a session |
| `App.TaskEndpointsUnmounted` | src/index.ts:15-18 | as mounted, `POST /tasks/:projectId/tasks` and `GET /filters/tasks` match no route, while `POST /tasks/signup` reaches createUser |
| `App.IntendedTaskEndpointReachable` | src/index.ts:18 | with the task router mounted at `/tasks`, `POST /tasks/:projectId/tasks` reaches createTask for any session |
| `App.IntendedFilterEndpointReachable` | src/routes/filterRoutes.ts:7-8 | with the filter router mounted at `/filters`, `GET /filters/tasks` reaches filterTasks for any session |

## Left out

- Cryptography: token signing and verification, bcrypt hashing and comparison, and the email format are function parameters. Salts, cost rounds, the token's issue and expiry claims, and the clock are not modelled. Expiry is whatever the verifier decides.
- Decoded token shape: a verified payload is assumed to carry a string `userId` and a role of the declared union. A token signed with the same secret but holding other claims is not modelled.
- `Authentication.AuthenticateUser`: the `catch` branch that answers 401 on an exception cannot be reached in the model. `getDataFromRequest` already turns every verification failure into "nothing".
- The database: Prisma is replaced by maps. The following are not modelled because the database schema is not part of this model: its referential actions (cascades or foreign-key refusals when a user or project is deleted), a foreign-key check on `updateTask`'s assignee, uniqueness enforcement of `email` on update, and the columns the handlers never name (timestamps).
- Store failures (a lost connection and the like) and the 500 they cause are not modelled. The 500 answers that follow from the model's own state are modelled: a missing row in `updateUser` and `deleteUser`, a missing `id` parameter in `getUser`.
- `Auth.JwtSecret`: the handlers, the middleware and the router take the secret as a parameter; that the program passes `JwtSecret` of `JWT_SECRET`, read once at start-up, is not stated by their contracts.
- Route patterns: a pattern naming the same parameter twice binds its first occurrence; no route registers such a pattern.
- Id generation: a new row's id is a parameter that must not already be in use.
- Default statuses: the status a new project or task receives is a parameter, since the store's default is not visible in the code. `createUser` sets no role, so a new user gets the column default, which the model takes to be USER.
- `AuthController.SignIn`: `findUnique` by email returns the single row holding that email. If several rows hold one email, which becomes possible once an update duplicates one, the model picks any of them. Its "200 exactly when the credentials match" postcondition is stated only for an email held once.
- `FilterController.FilterTasks`: `skip` and `take` are taken as numbers already parsed from the query string. `Number()` coercion, NaN, negative values and `take = 0` are not modelled, so `take > 0` is required. The database's row order is a parameter that lists every task once. The `project` and `assignedUser` records the query includes with each task are not modelled. A query parameter given more than once is not modelled.
- zod: error messages, the exact issue objects, and unknown-key stripping are left out. An issue is modelled by its field path only. A JSON field that is missing or not a string is treated as absent, and a missing body is treated as an empty one. Lengths count string elements, standing for JavaScript's UTF-16 code units.
- Responses: only the status code and the key payload fields are modelled. Success messages that accompany a record are dropped, and so is `console.error` logging. The cookie's `secure` flag is the parameter `production`, which stands for `NODE_ENV === "production"`.
- Express routing: HEAD requests, trailing slashes, URL decoding, case-insensitive matching and Express's default 404 page are not modelled. The route files are modelled as the tables they register. Request dispatch ends at choosing the handler, with its parameters and `req.user`. The handlers are modelled separately.
- Server bootstrap: CORS, body and cookie parsing, the listening port. The model handles one request at a time, and concurrent requests are not modelled.

## Findings

| source | as written | input that shows it | evidently intended | confidence | as-written member | corrected member |
|---|---|---|---|---|---|---|
| src/index.ts:15-18 | the auth router is mounted a second time at `/tasks`; the task router and the filter router are never mounted | `POST /tasks/p1/tasks` with a valid session matches no route (404), and `POST /tasks/signup` registers a user | the task router mounted at `/tasks` and the filter router at `/filters`, so the task endpoints and `GET /filters/tasks` are served | high; not executed | `App.TaskEndpointsUnmounted` | `App.IntendedTaskEndpointReachable`, `App.IntendedFilterEndpointReachable` |

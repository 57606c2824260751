/** The parts of Express's request and response objects the core touches. */
module Http {
  import opened Basics
  import opened Types
  import opened Database

  datatype Method = GET | POST | PUT | DELETE

  /** A middleware either calls `next()` once or answers the request itself. */
  datatype Gate = Next | Halt(status: nat, message: string)

  datatype Pagination = Pagination(totalTasks: nat, totalPages: nat, currentPage: nat, tasksPerPage: nat)

  /** The JSON body of a response, reduced to the fields that matter. */
  datatype Payload =
    | Message(text: string)
    | Issues(paths: seq<string>)
    | UserRecord(userId: Id, user: User)
    | MaybeUser(found: Option<User>)
    | UserList(users: map<Id, User>)
    | ProjectRecord(projectId: Id, project: Project)
    | ProjectList(projects: map<Id, Project>)
    | TaskRecord(taskId: Id, task: Task)
    | TaskList(tasks: map<Id, Task>)
    | TaskPage(page: seq<(Id, Task)>, pagination: Pagination)

  /** `res.status(status).json(payload)`. */
  datatype Outcome = Outcome(status: nat, payload: Payload)

  datatype SameSite = Strict | Lax

  datatype CookieOptions = CookieOptions(httpOnly: bool, secure: bool, sameSite: SameSite, maxAgeMs: Option<nat>)

  /** A `Set-Cookie` header: a value, or Express's `clearCookie` (empty value,
      expiry in the past). */
  datatype CookieHeader = Issued(value: string, options: CookieOptions) | Cleared(options: CookieOptions)

  /** The request: its parsed cookies and the `user` slot the authentication
      middleware fills in. */
  class Request {
    var cookies: map<string, string>
    var user: Option<SessionUser>

    constructor (cookies: map<string, string>)
      ensures this.cookies == cookies && user == None
    {
      this.cookies := cookies;
      user := None;
    }
  }

  /** The cookie headers a response carries. */
  class Response {
    var cookies: map<string, CookieHeader>

    constructor ()
      ensures cookies == map[]
    {
      cookies := map[];
    }

    /** `res.cookie(name, value, options)`. */
    method SetCookie(name: string, value: string, options: CookieOptions)
      modifies this`cookies
      ensures cookies == old(cookies)[name := Issued(value, options)]
    {
      cookies := cookies[name := Issued(value, options)];
    }

    /** `res.clearCookie(name, options)`. */
    method ClearCookie(name: string, options: CookieOptions)
      modifies this`cookies
      ensures cookies == old(cookies)[name := Cleared(options)]
    {
      cookies := cookies[name := Cleared(options)];
    }
  }
}

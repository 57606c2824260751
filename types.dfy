/** The values shared by every layer: identifiers, roles, the session user that
    `authenticateUser` attaches to a request, the token payload, and the two
    status enumerations with their wire spellings. */
module Types {
  import opened Basics

  type Id = string

  /** The role union declared for `req.user.role`. */
  datatype Role = USER | ADMIN

  /** `req.user`: the identity and role copied out of a verified token. */
  datatype SessionUser = SessionUser(id: string, role: Role)

  /** The claims `generateToken` signs (issue and expiry times are not modelled). */
  datatype TokenPayload = TokenPayload(userId: string, role: Role)

  datatype ProjectStatus = PLANNED | ONGOING | COMPLETED

  datatype TaskStatus = TODO | IN_PROGRESS | DONE

  function ProjectStatusName(s: ProjectStatus): string
  {
    match s
    case PLANNED => "PLANNED"
    case ONGOING => "ONGOING"
    case COMPLETED => "COMPLETED"
  }

  /** The enum check `z.enum(["PLANNED", "ONGOING", "COMPLETED"])`. */
  function ParseProjectStatus(s: string): (r: Option<ProjectStatus>)
    ensures r.Some? <==> s in {"PLANNED", "ONGOING", "COMPLETED"}
    ensures r.Some? ==> ProjectStatusName(r.value) == s
  {
    if s == "PLANNED" then Some(PLANNED)
    else if s == "ONGOING" then Some(ONGOING)
    else if s == "COMPLETED" then Some(COMPLETED)
    else None
  }

  lemma ProjectStatusRoundTrip(s: ProjectStatus)
    ensures ParseProjectStatus(ProjectStatusName(s)) == Some(s)
  {
  }

  function TaskStatusName(s: TaskStatus): string
  {
    match s
    case TODO => "TODO"
    case IN_PROGRESS => "IN_PROGRESS"
    case DONE => "DONE"
  }

  /** The enum check `z.enum(["TODO", "IN_PROGRESS", "DONE"])`, also written out
      by hand in the task filter. */
  function ParseTaskStatus(s: string): (r: Option<TaskStatus>)
    ensures r.Some? <==> s in {"TODO", "IN_PROGRESS", "DONE"}
    ensures r.Some? ==> TaskStatusName(r.value) == s
  {
    if s == "TODO" then Some(TODO)
    else if s == "IN_PROGRESS" then Some(IN_PROGRESS)
    else if s == "DONE" then Some(DONE)
    else None
  }

  lemma TaskStatusRoundTrip(s: TaskStatus)
    ensures ParseTaskStatus(TaskStatusName(s)) == Some(s)
  {
  }
}

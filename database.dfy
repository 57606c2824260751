/** An in-memory stand-in for the Prisma client: one map per table, keyed by
    the row id. Only the columns the controllers read or write are kept. */
module Database {
  import opened Types

  /** `password` holds the bcrypt hash, never the plaintext. */
  datatype User = User(name: string, email: string, password: string, role: Role)

  datatype Project = Project(name: string, description: string, status: ProjectStatus, userId: Id)

  datatype Task = Task(
    title: string,
    description: string,
    status: TaskStatus,
    projectId: Id,
    assignedUserId: Id)

  class Store {
    var users: map<Id, User>
    var projects: map<Id, Project>
    var tasks: map<Id, Task>

    constructor ()
      ensures users == map[] && projects == map[] && tasks == map[]
    {
      users, projects, tasks := map[], map[], map[];
    }
  }

  /** `prisma.user.findUnique({ where: { email } })` finds a row. */
  predicate EmailTaken(users: map<Id, User>, email: string)
  {
    exists id :: id in users && users[id].email == email
  }

  /** The uniqueness the `email` column is declared with. */
  ghost predicate EmailsUnique(users: map<Id, User>)
  {
    forall a, b :: a in users && b in users && users[a].email == users[b].email ==> a == b
  }
}

/** The project handlers. No handler checks that the session user owns the
    project it reads, changes or deletes. */
module ProjectController {
  import opened Basics
  import opened Types
  import opened Schema
  import opened Database
  import opened Http
  import ProjectValidator

  const UserNotFound := "User not found"
  const ProjectNotFound := "Project not found"
  const ProjectDeleted := "Project deleted successfully"
  const UpdateFailed := "Project update failed"

  /** A bad body is 400; a session without an id, or whose user is not
      stored, is 404; otherwise one project owned by the session user is
      added. `initial` is the status the store gives a new row. */
  method CreateProject(db: Store, session: Option<SessionUser>, body: Fields, newId: Id, initial: ProjectStatus)
    returns (out: Outcome)
    requires newId !in db.projects
    modifies db
    ensures var v := ProjectValidator.ParseProject(body);
      && (v.Failure? ==> out == Outcome(400, Issues(v.error)) && unchanged(db))
      && (v.Success? && (session.None? || session.value.id == "" || session.value.id !in old(db.users)) ==>
            out == Outcome(404, Message(UserNotFound)) && unchanged(db))
      && (v.Success? && session.Some? && session.value.id != "" && session.value.id in old(db.users) ==>
            var created := Project(v.value.name, v.value.description, initial, session.value.id);
            && out == Outcome(201, ProjectRecord(newId, created))
            && db.projects == old(db.projects)[newId := created]
            && db.users == old(db.users) && db.tasks == old(db.tasks))
  {
    var v := ProjectValidator.ParseProject(body);
    if v.Failure? {
      return Outcome(400, Issues(v.error));
    }
    if session.None? || session.value.id == "" {
      return Outcome(404, Message(UserNotFound));
    }
    var userId := session.value.id;
    if userId !in db.users {
      return Outcome(404, Message(UserNotFound));
    }
    var project := Project(v.value.name, v.value.description, initial, userId);
    db.projects := db.projects[newId := project];
    out := Outcome(201, ProjectRecord(newId, project));
  }

  /** Every stored project. */
  function ListProjects(projects: map<Id, Project>): (out: Outcome)
    ensures out == Outcome(200, ProjectList(projects))
  {
    Outcome(200, ProjectList(projects))
  }

  /** The stored project, or 404. */
  function GetProject(projects: map<Id, Project>, id: Id): (out: Outcome)
    ensures id !in projects ==> out == Outcome(404, Message(ProjectNotFound))
    ensures id in projects ==> out == Outcome(200, ProjectRecord(id, projects[id]))
  {
    if id in projects then Outcome(200, ProjectRecord(id, projects[id]))
    else Outcome(404, Message(ProjectNotFound))
  }

  /** Exactly the projects owned by the session user; 404 without a session id. */
  function GetUserProjects(projects: map<Id, Project>, session: Option<SessionUser>): (out: Outcome)
    ensures session.None? || session.value.id == "" ==> out == Outcome(404, Message(UserNotFound))
    ensures session.Some? && session.value.id != "" ==>
              && out.status == 200 && out.payload.ProjectList?
              && (forall id :: id in out.payload.projects <==> id in projects && projects[id].userId == session.value.id)
              && (forall id :: id in out.payload.projects ==> out.payload.projects[id] == projects[id])
  {
    if session.None? || session.value.id == "" then Outcome(404, Message(UserNotFound))
    else
      var owner := session.value.id;
      Outcome(200, ProjectList(map id | id in projects && projects[id].userId == owner :: projects[id]))
  }

  /** The body is validated before the lookup and a validation failure is
      caught by the generic handler, so it is 500, not 400; an unknown id is
      404; on success name, description and status are overwritten and the
      owner is kept. */
  method UpdateProject(db: Store, id: Id, body: Fields) returns (out: Outcome)
    modifies db
    ensures var v := ProjectValidator.ParseProjectUpdate(body);
      && (v.Failure? ==> out == Outcome(500, Message(UpdateFailed)) && unchanged(db))
      && (v.Success? && id !in old(db.projects) ==> out == Outcome(404, Message(ProjectNotFound)) && unchanged(db))
      && (v.Success? && id in old(db.projects) ==>
            var updated := old(db.projects)[id].(name := v.value.name, description := v.value.description, status := v.value.status);
            && out == Outcome(200, ProjectRecord(id, updated))
            && db.projects == old(db.projects)[id := updated]
            && db.users == old(db.users) && db.tasks == old(db.tasks))
    ensures id in db.projects ==> db.projects[id].userId == old(db.projects)[id].userId
  {
    var v := ProjectValidator.ParseProjectUpdate(body);
    if v.Failure? {
      return Outcome(500, Message(UpdateFailed));
    }
    if id !in db.projects {
      return Outcome(404, Message(ProjectNotFound));
    }
    var project := db.projects[id];
    project := project.(name := v.value.name);
    project := project.(description := v.value.description);
    project := project.(status := v.value.status);
    db.projects := db.projects[id := project];
    out := Outcome(200, ProjectRecord(id, project));
  }

  /** 404 for an unknown id, otherwise exactly that project is removed. */
  method DeleteProject(db: Store, id: Id) returns (out: Outcome)
    modifies db
    ensures id !in old(db.projects) ==> out == Outcome(404, Message(ProjectNotFound)) && unchanged(db)
    ensures id in old(db.projects) ==>
              && out == Outcome(200, Message(ProjectDeleted))
              && db.projects == old(db.projects) - {id}
              && db.users == old(db.users) && db.tasks == old(db.tasks)
  {
    if id !in db.projects {
      return Outcome(404, Message(ProjectNotFound));
    }
    db.projects := db.projects - {id};
    out := Outcome(200, Message(ProjectDeleted));
  }

  /** A project created and then fetched has the name and description sent
      and the creation status; a second delete of it is 404. */
  method CreateGetDelete(db: Store, session: SessionUser, body: Fields, newId: Id, initial: ProjectStatus)
    returns (fetched: Outcome, first: Outcome, second: Outcome)
    requires newId !in db.projects
    requires ProjectValidator.ValidProject(body)
    requires session.id != "" && session.id in db.users
    modifies db
    ensures fetched == Outcome(200, ProjectRecord(newId, Project(body["name"], body["description"], initial, session.id)))
    ensures first.status == 200 && second == Outcome(404, Message(ProjectNotFound))
    ensures newId !in db.projects
  {
    var created := CreateProject(db, Some(session), body, newId, initial);
    fetched := GetProject(db.projects, newId);
    first := DeleteProject(db, newId);
    second := DeleteProject(db, newId);
  }
}

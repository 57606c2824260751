/** The task handlers. None of them reads the session, so their outcomes do
    not depend on who is signed in or with which role. */
module TaskController {
  import opened Basics
  import opened Types
  import opened Schema
  import opened Database
  import opened Http
  import TaskValidator

  const ProjectNotFound := "Project not found"
  const AssignedUserNotFound := "Assigned user not found"
  const TaskNotFound := "Task not found"
  const TaskDeleted := "Task deleted successfully"
  const CreationFailed := "Task creation failed"
  const UpdateFailed := "Task update failed"

  /** The project is looked up first (missing: 400); then the body is
      validated, a failure reaching the generic handler (500); then the
      assignee (missing: 400); then one task is added under the path's
      project. `initial` is the status the store gives a new row. */
  method CreateTask(db: Store, projectId: Id, body: Fields, newId: Id, initial: TaskStatus) returns (out: Outcome)
    requires newId !in db.tasks
    modifies db
    ensures projectId !in old(db.projects) ==> out == Outcome(400, Message(ProjectNotFound)) && unchanged(db)
    ensures var v := TaskValidator.ParseTask(body);
      && (projectId in old(db.projects) && v.Failure? ==> out == Outcome(500, Message(CreationFailed)) && unchanged(db))
      && (projectId in old(db.projects) && v.Success? && v.value.assignedUserId !in old(db.users) ==>
            out == Outcome(400, Message(AssignedUserNotFound)) && unchanged(db))
      && (projectId in old(db.projects) && v.Success? && v.value.assignedUserId in old(db.users) ==>
            var created := Task(v.value.title, v.value.description, initial, projectId, v.value.assignedUserId);
            && out == Outcome(201, TaskRecord(newId, created))
            && db.tasks == old(db.tasks)[newId := created]
            && db.users == old(db.users) && db.projects == old(db.projects))
  {
    if projectId !in db.projects {
      return Outcome(400, Message(ProjectNotFound));
    }
    var v := TaskValidator.ParseTask(body);
    if v.Failure? {
      return Outcome(500, Message(CreationFailed));
    }
    var data := v.value;
    if data.assignedUserId !in db.users {
      return Outcome(400, Message(AssignedUserNotFound));
    }
    var task := Task(data.title, data.description, initial, projectId, data.assignedUserId);
    db.tasks := db.tasks[newId := task];
    out := Outcome(201, TaskRecord(newId, task));
  }

  /** 400 for a missing project, otherwise exactly the tasks under it. */
  function ListTasksForProject(projects: map<Id, Project>, tasks: map<Id, Task>, projectId: Id): (out: Outcome)
    ensures projectId !in projects ==> out == Outcome(400, Message(ProjectNotFound))
    ensures projectId in projects ==>
              && out.status == 200 && out.payload.TaskList?
              && (forall id :: id in out.payload.tasks <==> id in tasks && tasks[id].projectId == projectId)
              && (forall id :: id in out.payload.tasks ==> out.payload.tasks[id] == tasks[id])
  {
    if projectId !in projects then Outcome(400, Message(ProjectNotFound))
    else Outcome(200, TaskList(map id | id in tasks && tasks[id].projectId == projectId :: tasks[id]))
  }

  /** An unknown task is 404 before the body is looked at; a bad body is 500;
      otherwise title, description, assignee and status are overwritten and
      the task stays under its project. */
  method UpdateTask(db: Store, taskId: Id, body: Fields) returns (out: Outcome)
    modifies db
    ensures taskId !in old(db.tasks) ==> out == Outcome(404, Message(TaskNotFound)) && unchanged(db)
    ensures var v := TaskValidator.ParseTaskUpdate(body);
      && (taskId in old(db.tasks) && v.Failure? ==> out == Outcome(500, Message(UpdateFailed)) && unchanged(db))
      && (taskId in old(db.tasks) && v.Success? ==>
            var updated := old(db.tasks)[taskId].(title := v.value.title, description := v.value.description,
                                                  assignedUserId := v.value.assignedUserId, status := v.value.status);
            && out == Outcome(200, TaskRecord(taskId, updated))
            && db.tasks == old(db.tasks)[taskId := updated]
            && db.users == old(db.users) && db.projects == old(db.projects))
    ensures taskId in db.tasks ==> db.tasks[taskId].projectId == old(db.tasks)[taskId].projectId
  {
    if taskId !in db.tasks {
      return Outcome(404, Message(TaskNotFound));
    }
    var v := TaskValidator.ParseTaskUpdate(body);
    if v.Failure? {
      return Outcome(500, Message(UpdateFailed));
    }
    var data := v.value;
    var updated := db.tasks[taskId].(title := data.title, description := data.description,
                                     assignedUserId := data.assignedUserId, status := data.status);
    db.tasks := db.tasks[taskId := updated];
    out := Outcome(200, TaskRecord(taskId, updated));
  }

  /** 404 for an unknown task, otherwise exactly that task is removed. */
  method DeleteTask(db: Store, taskId: Id) returns (out: Outcome)
    modifies db
    ensures taskId !in old(db.tasks) ==> out == Outcome(404, Message(TaskNotFound)) && unchanged(db)
    ensures taskId in old(db.tasks) ==>
              && out == Outcome(200, Message(TaskDeleted))
              && db.tasks == old(db.tasks) - {taskId}
              && db.users == old(db.users) && db.projects == old(db.projects)
  {
    if taskId !in db.tasks {
      return Outcome(404, Message(TaskNotFound));
    }
    db.tasks := db.tasks - {taskId};
    out := Outcome(200, Message(TaskDeleted));
  }
}

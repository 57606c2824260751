/** `createTaskSchema` and `updateTaskSchema`. */
module TaskValidator {
  import opened Basics
  import opened Types
  import opened Schema

  const MaxTitleLength := 255

  datatype NewTask = NewTask(title: string, description: string, assignedUserId: string)

  datatype TaskUpdate = TaskUpdate(title: string, description: string, assignedUserId: string, status: TaskStatus)

  predicate ValidTask(body: Fields)
  {
    && LengthBetween(body, "title", 1, MaxTitleLength)
    && MinLength(body, "description", 6)
    && MinLength(body, "assignedUserId", 1)
  }

  function TaskIssues(body: Fields): (issues: seq<string>)
    ensures issues == [] <==> ValidTask(body)
  {
    IssueIf(LengthBetween(body, "title", 1, MaxTitleLength), "title")
    + IssueIf(MinLength(body, "description", 6), "description")
    + IssueIf(MinLength(body, "assignedUserId", 1), "assignedUserId")
  }

  function ParseTask(body: Fields): (r: Result<NewTask, seq<string>>)
    ensures r.Success? <==> ValidTask(body)
    ensures r.Success? ==> r.value == NewTask(body["title"], body["description"], body["assignedUserId"])
    ensures r.Failure? ==> r.error != []
  {
    var issues := TaskIssues(body);
    if issues == [] then Success(NewTask(body["title"], body["description"], body["assignedUserId"]))
    else Failure(issues)
  }

  predicate ValidTaskUpdate(body: Fields)
  {
    ValidTask(body) && "status" in body && ParseTaskStatus(body["status"]).Some?
  }

  function ParseTaskUpdate(body: Fields): (r: Result<TaskUpdate, seq<string>>)
    ensures r.Success? <==> ValidTaskUpdate(body)
    ensures r.Success? ==>
              && r.value.title == body["title"] && r.value.description == body["description"]
              && r.value.assignedUserId == body["assignedUserId"]
              && TaskStatusName(r.value.status) == body["status"]
    ensures r.Failure? ==> r.error != []
  {
    var status := if "status" in body then ParseTaskStatus(body["status"]) else None;
    var issues := TaskIssues(body) + IssueIf(status.Some?, "status");
    if issues == [] then
      Success(TaskUpdate(body["title"], body["description"], body["assignedUserId"], status.value))
    else
      Failure(issues)
  }

  /** An accepted update is also an acceptable task on the shared fields. */
  lemma UpdateImpliesCreate(body: Fields)
    requires ParseTaskUpdate(body).Success?
    ensures ParseTask(body).Success?
    ensures ParseTask(body).value.title == ParseTaskUpdate(body).value.title
    ensures ParseTask(body).value.description == ParseTaskUpdate(body).value.description
    ensures ParseTask(body).value.assignedUserId == ParseTaskUpdate(body).value.assignedUserId
  {
  }

  /** 255 title characters pass, 256 do not; an empty assignee never passes. */
  lemma TitleBoundary(body: Fields, title: string)
    requires MinLength(body, "description", 6) && MinLength(body, "assignedUserId", 1)
    ensures |title| == 255 ==> ParseTask(body["title" := title]).Success?
    ensures |title| == 256 ==> ParseTask(body["title" := title]).Failure?
    ensures ParseTask(body["assignedUserId" := ""]).Failure?
    ensures ParseTaskUpdate(body["assignedUserId" := ""]).Failure?
  {
  }
}

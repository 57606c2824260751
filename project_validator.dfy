/** `projectSchema` and `updateProjectSchema`. */
module ProjectValidator {
  import opened Basics
  import opened Types
  import opened Schema

  /** The create schema has no status field, so creation never supplies one. */
  datatype NewProject = NewProject(name: string, description: string)

  datatype ProjectUpdate = ProjectUpdate(name: string, description: string, status: ProjectStatus)

  predicate ValidProject(body: Fields)
  {
    MinLength(body, "name", 2) && MinLength(body, "description", 4)
  }

  function ParseProject(body: Fields): (r: Result<NewProject, seq<string>>)
    ensures r.Success? <==> ValidProject(body)
    ensures r.Success? ==> r.value == NewProject(body["name"], body["description"])
    ensures r.Failure? ==> r.error != []
  {
    var issues :=
      IssueIf(MinLength(body, "name", 2), "name")
      + IssueIf(MinLength(body, "description", 4), "description");
    if issues == [] then Success(NewProject(body["name"], body["description"])) else Failure(issues)
  }

  predicate ValidProjectUpdate(body: Fields)
  {
    ValidProject(body) && "status" in body && ParseProjectStatus(body["status"]).Some?
  }

  function ParseProjectUpdate(body: Fields): (r: Result<ProjectUpdate, seq<string>>)
    ensures r.Success? <==> ValidProjectUpdate(body)
    ensures r.Success? ==>
              && r.value.name == body["name"] && r.value.description == body["description"]
              && ProjectStatusName(r.value.status) == body["status"]
    ensures r.Failure? ==> r.error != []
    ensures "status" in body && body["status"] !in {"PLANNED", "ONGOING", "COMPLETED"} ==> r.Failure?
  {
    var status := if "status" in body then ParseProjectStatus(body["status"]) else None;
    var issues :=
      IssueIf(MinLength(body, "name", 2), "name")
      + IssueIf(MinLength(body, "description", 4), "description")
      + IssueIf(status.Some?, "status");
    if issues == [] then Success(ProjectUpdate(body["name"], body["description"], status.value))
    else Failure(issues)
  }

  /** An accepted update carries a name and description the create schema accepts. */
  lemma UpdateImpliesCreate(body: Fields)
    requires ParseProjectUpdate(body).Success?
    ensures ParseProject(body) == Success(NewProject(ParseProjectUpdate(body).value.name, ParseProjectUpdate(body).value.description))
  {
  }
}

/** The task routes: each needs a session and nothing more. */
module TaskRoutes {
  import opened Basics
  import opened Types
  import opened Foreign
  import opened Http
  import opened Auth
  import opened Authentication
  import opened Router

  function Routes(): (routes: seq<Route>)
    ensures AuthenticatesFirst(routes)
  {
    [ Route(POST, [Param("projectId"), Lit("tasks")], [Authenticate], CreateTask),
      Route(GET, [Param("projectId"), Lit("tasks")], [Authenticate], ListTasksForProject),
      Route(PUT, [Param("taskId")], [Authenticate], UpdateTask),
      Route(DELETE, [Param("taskId")], [Authenticate], DeleteTask) ]
  }

  /** With any session, USER or ADMIN alike, each endpoint reaches its handler. */
  lemma SessionOnlyEndpoints(projectId: string, taskId: string, cookies: map<string, string>, jwt: Jwt, secret: string)
    requires projectId != "" && taskId != ""
    requires GetDataFromRequest(cookies, jwt, secret).Some?
    ensures var p := GetDataFromRequest(cookies, jwt, secret).value;
            var session := Some(SessionUser(p.userId, p.role));
            && Resolve(Routes(), POST, [projectId, "tasks"], cookies, jwt, secret)
               == Dispatched(CreateTask, map["projectId" := projectId], session)
            && Resolve(Routes(), GET, [projectId, "tasks"], cookies, jwt, secret)
               == Dispatched(ListTasksForProject, map["projectId" := projectId], session)
            && Resolve(Routes(), PUT, [taskId], cookies, jwt, secret) == Dispatched(UpdateTask, map["taskId" := taskId], session)
            && Resolve(Routes(), DELETE, [taskId], cookies, jwt, secret) == Dispatched(DeleteTask, map["taskId" := taskId], session)
  {
    var forProject := [Param("projectId"), Lit("tasks")];
    assert forProject[1..] == [Lit("tasks")];
    assert PatternParams(forProject[1..], [projectId, "tasks"][1..]) == Some(map[]);
    assert PatternParams(forProject, [projectId, "tasks"]) == Some(map["projectId" := projectId]);
    assert PatternParams([Param("taskId")], [taskId]) == Some(map["taskId" := taskId]);
    AuthenticatedOnlyDispatch(Routes(), POST, [projectId, "tasks"], cookies, jwt, secret, 0);
    AuthenticatedOnlyDispatch(Routes(), GET, [projectId, "tasks"], cookies, jwt, secret, 1);
    AuthenticatedOnlyDispatch(Routes(), PUT, [taskId], cookies, jwt, secret, 2);
    AuthenticatedOnlyDispatch(Routes(), DELETE, [taskId], cookies, jwt, secret, 3);
  }

  /** `POST /:projectId/tasks` alone. */
  lemma CreateTaskEndpoint(projectId: string, cookies: map<string, string>, jwt: Jwt, secret: string)
    requires projectId != ""
    requires GetDataFromRequest(cookies, jwt, secret).Some?
    ensures var p := GetDataFromRequest(cookies, jwt, secret).value;
            Resolve(Routes(), POST, [projectId, "tasks"], cookies, jwt, secret)
            == Dispatched(CreateTask, map["projectId" := projectId], Some(SessionUser(p.userId, p.role)))
  {
    var forProject := [Param("projectId"), Lit("tasks")];
    assert forProject[1..] == [Lit("tasks")];
    assert PatternParams(forProject[1..], [projectId, "tasks"][1..]) == Some(map[]);
    assert PatternParams(forProject, [projectId, "tasks"]) == Some(map["projectId" := projectId]);
    AuthenticatedOnlyDispatch(Routes(), POST, [projectId, "tasks"], cookies, jwt, secret, 0);
  }

  lemma UnauthenticatedRejected(m: Method, path: Path, cookies: map<string, string>, jwt: Jwt, secret: string)
    requires GetDataFromRequest(cookies, jwt, secret).None?
    ensures var r := Resolve(Routes(), m, path, cookies, jwt, secret);
            r.NoRoute? || r == Rejected(401, InvalidTokenMessage)
  {
    Router.UnauthenticatedRejected(Routes(), m, path, cookies, jwt, secret);
  }
}

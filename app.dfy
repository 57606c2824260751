/** The application's mount table: each router answers under a path prefix,
    and a request no mounted router matches falls through to Express's 404. */
module App {
  import opened Basics
  import opened Types
  import opened Foreign
  import opened Http
  import opened Auth
  import opened Router
  import AuthRoutes
  import UserRoutes
  import ProjectRoutes
  import TaskRoutes
  import FilterRoutes

  datatype Mount = Mount(prefix: string, routes: seq<Route>)

  /** The table as registered: the auth router twice, under `/auth` and
      `/tasks`; the task and filter routers nowhere. */
  function Mounts(): (ms: seq<Mount>)
    ensures |ms| == 4 && ms[0].prefix == "auth" && ms[1].prefix == "users" && ms[2].prefix == "projects"
    ensures ms[3] == Mount("tasks", AuthRoutes.Routes())
    ensures forall i :: 0 <= i < |ms| ==> ms[i].routes != TaskRoutes.Routes() && ms[i].routes != FilterRoutes.Routes()
  {
    [ Mount("auth", AuthRoutes.Routes()),
      Mount("users", UserRoutes.Routes()),
      Mount("projects", ProjectRoutes.Routes()),
      Mount("tasks", AuthRoutes.Routes()) ]
  }

  /** The table the routers are written for: the task router under `/tasks`
      and the filter router under `/filters`. */
  function IntendedMounts(): (ms: seq<Mount>)
    ensures |ms| == 5 && ms[..3] == Mounts()[..3]
    ensures ms[3] == Mount("tasks", TaskRoutes.Routes()) && ms[4] == Mount("filters", FilterRoutes.Routes())
    ensures forall i, j :: 0 <= i < j < |ms| ==> ms[i].prefix != ms[j].prefix
  {
    [ Mount("auth", AuthRoutes.Routes()),
      Mount("users", UserRoutes.Routes()),
      Mount("projects", ProjectRoutes.Routes()),
      Mount("tasks", TaskRoutes.Routes()),
      Mount("filters", FilterRoutes.Routes()) ]
  }

  /** Mounts are tried in order from the `k`-th; a router that matches no
      route passes the request on to the next mount. */
  function ResolveFrom(mounts: seq<Mount>, k: nat, m: Method, path: Path, cookies: map<string, string>,
                       jwt: Jwt, secret: string): (r: Resolution)
    requires k <= |mounts|
    ensures !r.NoRoute? ==>
              exists j :: k <= j < |mounts| && |path| > 0 && mounts[j].prefix == path[0]
                          && r == Resolve(mounts[j].routes, m, path[1..], cookies, jwt, secret)
    ensures (|path| == 0 || forall j :: k <= j < |mounts| ==> mounts[j].prefix != path[0]) ==> r == NoRoute
    ensures |path| > 0 && (forall i, j :: k <= i < j < |mounts| ==> mounts[i].prefix != mounts[j].prefix) ==>
              forall j :: k <= j < |mounts| && mounts[j].prefix == path[0] ==>
                r == Resolve(mounts[j].routes, m, path[1..], cookies, jwt, secret)
    decreases |mounts| - k
  {
    if k == |mounts| then NoRoute
    else
      var here := if |path| > 0 && path[0] == mounts[k].prefix
                  then Resolve(mounts[k].routes, m, path[1..], cookies, jwt, secret)
                  else NoRoute;
      if here.NoRoute? then ResolveFrom(mounts, k + 1, m, path, cookies, jwt, secret) else here
  }

  /** The whole table: a path under no mounted prefix is NoRoute, and when
      prefixes are distinct the router under the path's prefix answers. */
  function ResolveApp(mounts: seq<Mount>, m: Method, path: Path, cookies: map<string, string>,
                      jwt: Jwt, secret: string): (r: Resolution)
    ensures (|path| == 0 || forall j :: 0 <= j < |mounts| ==> mounts[j].prefix != path[0]) ==> r == NoRoute
    ensures |path| > 0 && (forall i, j :: 0 <= i < j < |mounts| ==> mounts[i].prefix != mounts[j].prefix) ==>
              forall j :: 0 <= j < |mounts| && mounts[j].prefix == path[0] ==>
                r == Resolve(mounts[j].routes, m, path[1..], cookies, jwt, secret)
  {
    ResolveFrom(mounts, 0, m, path, cookies, jwt, secret)
  }

  /** A mount whose prefix is not the path's first segment passes the
      request on. */
  lemma SkipMount(mounts: seq<Mount>, k: nat, m: Method, path: Path, cookies: map<string, string>,
                  jwt: Jwt, secret: string)
    requires k < |mounts| && |path| > 0 && path[0] != mounts[k].prefix
    ensures ResolveFrom(mounts, k, m, path, cookies, jwt, secret) == ResolveFrom(mounts, k + 1, m, path, cookies, jwt, secret)
  {
  }

  /** As registered, the task endpoints and the filter endpoint answer 404,
      while `/tasks/signup` registers a user. */
  lemma TaskEndpointsUnmounted(projectId: string, cookies: map<string, string>, jwt: Jwt, secret: string)
    ensures ResolveApp(Mounts(), POST, ["tasks", projectId, "tasks"], cookies, jwt, secret) == NoRoute
    ensures ResolveApp(Mounts(), GET, ["filters", "tasks"], cookies, jwt, secret) == NoRoute
    ensures ResolveApp(Mounts(), POST, ["tasks", "signup"], cookies, jwt, secret) == Dispatched(CreateUser, map[], None)
  {
    TaskEndpointUnmounted(projectId, cookies, jwt, secret);
    FilterEndpointUnmounted(cookies, jwt, secret);
    TasksPrefixSignsUp(cookies, jwt, secret);
  }

  lemma TaskEndpointUnmounted(projectId: string, cookies: map<string, string>, jwt: Jwt, secret: string)
    ensures ResolveApp(Mounts(), POST, ["tasks", projectId, "tasks"], cookies, jwt, secret) == NoRoute
  {
    var ms := Mounts();
    var path := ["tasks", projectId, "tasks"];
    assert path[1..] == [projectId, "tasks"];
    AuthRoutes.SingleSegmentsOnly(POST, path[1..], cookies, jwt, secret);
    assert ResolveFrom(ms, 3, POST, path, cookies, jwt, secret) == NoRoute;
    SkipMount(ms, 2, POST, path, cookies, jwt, secret);
    SkipMount(ms, 1, POST, path, cookies, jwt, secret);
    SkipMount(ms, 0, POST, path, cookies, jwt, secret);
  }

  lemma FilterEndpointUnmounted(cookies: map<string, string>, jwt: Jwt, secret: string)
    ensures ResolveApp(Mounts(), GET, ["filters", "tasks"], cookies, jwt, secret) == NoRoute
  {
    var ms := Mounts();
    var path := ["filters", "tasks"];
    SkipMount(ms, 3, GET, path, cookies, jwt, secret);
    SkipMount(ms, 2, GET, path, cookies, jwt, secret);
    SkipMount(ms, 1, GET, path, cookies, jwt, secret);
    SkipMount(ms, 0, GET, path, cookies, jwt, secret);
  }

  lemma TasksPrefixSignsUp(cookies: map<string, string>, jwt: Jwt, secret: string)
    ensures ResolveApp(Mounts(), POST, ["tasks", "signup"], cookies, jwt, secret) == Dispatched(CreateUser, map[], None)
  {
    var ms := Mounts();
    var path := ["tasks", "signup"];
    assert path[1..] == ["signup"];
    AuthRoutes.Endpoints(cookies, jwt, secret);
    assert ResolveFrom(ms, 3, POST, path, cookies, jwt, secret) == Dispatched(CreateUser, map[], None);
    SkipMount(ms, 2, POST, path, cookies, jwt, secret);
    SkipMount(ms, 1, POST, path, cookies, jwt, secret);
    SkipMount(ms, 0, POST, path, cookies, jwt, secret);
  }

  /** With the intended table a signed-in request reaches the task handlers ... */
  lemma IntendedTaskEndpointReachable(projectId: string, cookies: map<string, string>, jwt: Jwt, secret: string)
    requires projectId != ""
    requires GetDataFromRequest(cookies, jwt, secret).Some?
    ensures var p := GetDataFromRequest(cookies, jwt, secret).value;
            ResolveApp(IntendedMounts(), POST, ["tasks", projectId, "tasks"], cookies, jwt, secret)
            == Dispatched(CreateTask, map["projectId" := projectId], Some(SessionUser(p.userId, p.role)))
  {
    var ms := IntendedMounts();
    var path := ["tasks", projectId, "tasks"];
    assert path[1..] == [projectId, "tasks"];
    TaskRoutes.CreateTaskEndpoint(projectId, cookies, jwt, secret);
    assert ResolveFrom(ms, 3, POST, path, cookies, jwt, secret)
        == Resolve(TaskRoutes.Routes(), POST, path[1..], cookies, jwt, secret);
    SkipMount(ms, 2, POST, path, cookies, jwt, secret);
    SkipMount(ms, 1, POST, path, cookies, jwt, secret);
    SkipMount(ms, 0, POST, path, cookies, jwt, secret);
  }

  /** ... and the filter handler. */
  lemma IntendedFilterEndpointReachable(cookies: map<string, string>, jwt: Jwt, secret: string)
    requires GetDataFromRequest(cookies, jwt, secret).Some?
    ensures var p := GetDataFromRequest(cookies, jwt, secret).value;
            ResolveApp(IntendedMounts(), GET, ["filters", "tasks"], cookies, jwt, secret)
            == Dispatched(FilterTasks, map[], Some(SessionUser(p.userId, p.role)))
  {
    var ms := IntendedMounts();
    var path := ["filters", "tasks"];
    assert path[1..] == ["tasks"];
    FilterRoutes.Endpoint(cookies, jwt, secret);
    assert ResolveFrom(ms, 4, GET, path, cookies, jwt, secret)
        == Resolve(FilterRoutes.Routes(), GET, path[1..], cookies, jwt, secret);
    SkipMount(ms, 3, GET, path, cookies, jwt, secret);
    SkipMount(ms, 2, GET, path, cookies, jwt, secret);
    SkipMount(ms, 1, GET, path, cookies, jwt, secret);
    SkipMount(ms, 0, GET, path, cookies, jwt, secret);
  }
}

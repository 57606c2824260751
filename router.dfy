/** Express's router, reduced to what the route files use: an ordered list of
    routes, each a method, a path pattern, a middleware chain and a handler.
    A request goes to the first route whose method and pattern match; its
    middlewares run in order and the first that answers stops the chain. */
module Router {
  import opened Basics
  import opened Types
  import opened Foreign
  import opened Http
  import opened Auth
  import opened Authentication
  import opened Authorization

  /** A pattern segment: literal text, or a `:name` parameter matching one
      non-empty path segment. */
  datatype Segment = Lit(text: string) | Param(name: string)

  datatype Middleware = Authenticate | AuthorizeRoles(allowed: seq<Role>)

  datatype Handler =
    | CreateUser | SignIn | SignOut
    | ListUsers | UpdateAnyUser | UpdateUser | DeleteAnyUser | DeleteUser | GetUser
    | CreateProject | ListProjects | GetProject | GetUserProjects | UpdateProject | DeleteProject
    | CreateTask | ListTasksForProject | UpdateTask | DeleteTask
    | FilterTasks

  datatype Route = Route(verb: Method, pattern: seq<Segment>, chain: seq<Middleware>, handler: Handler)

  /** A request path, split into its segments (`/` is the empty path). */
  type Path = seq<string>

  /** A literal matches its own text; a parameter any non-empty segment. */
  predicate SegmentMatches(seg: Segment, part: string)
  {
    match seg
    case Lit(text) => part == text
    case Param(_) => part != ""
  }

  /** The `i`-th segment is the first parameter of its name. */
  predicate FirstOfName(pattern: seq<Segment>, i: int)
    requires 0 <= i < |pattern|
  {
    pattern[i].Param? && forall j :: 0 <= j < i ==> pattern[j] != pattern[i]
  }

  /** The route parameters when `path` matches `pattern`: the path matches
      exactly when it has the pattern's length and each segment matches;
      the parameters are exactly the pattern's names, each bound to the segment
      at its (first) position. */
  function PatternParams(pattern: seq<Segment>, path: Path): (r: Option<map<string, string>>)
    ensures r.Some? <==> |pattern| == |path| && forall i :: 0 <= i < |pattern| ==> SegmentMatches(pattern[i], path[i])
    ensures r.Some? ==> forall k :: k in r.value <==> Param(k) in pattern
    ensures r.Some? ==> forall i :: 0 <= i < |pattern| && FirstOfName(pattern, i) ==> r.value[pattern[i].name] == path[i]
    decreases |pattern|
  {
    if pattern == [] then (if path == [] then Some(map[]) else None)
    else if path == [] then None
    else
      var rest := PatternParams(pattern[1..], path[1..]);
      match pattern[0]
      case Lit(text) => if path[0] == text then rest else None
      case Param(name) =>
        if path[0] != "" && rest.Some? then Some(rest.value[name := path[0]]) else None
  }

  predicate RouteMatches(r: Route, m: Method, path: Path)
  {
    r.verb == m && PatternParams(r.pattern, path).Some?
  }

  /** The index of the first route from the `k`-th on that matches. */
  function FirstMatchFrom(routes: seq<Route>, k: nat, m: Method, path: Path): (i: Option<nat>)
    requires k <= |routes|
    ensures i.Some? ==> k <= i.value < |routes| && RouteMatches(routes[i.value], m, path)
    ensures i.Some? ==> forall j :: k <= j < i.value ==> !RouteMatches(routes[j], m, path)
    ensures i.None? ==> forall j :: k <= j < |routes| ==> !RouteMatches(routes[j], m, path)
    decreases |routes| - k
  {
    if k == |routes| then None
    else if RouteMatches(routes[k], m, path) then Some(k)
    else FirstMatchFrom(routes, k + 1, m, path)
  }

  /** The index of the first matching route: routes are tried in the order
      they were registered. */
  function FirstMatch(routes: seq<Route>, m: Method, path: Path): (i: Option<nat>)
    ensures i.Some? ==> i.value < |routes| && RouteMatches(routes[i.value], m, path)
    ensures i.Some? ==> forall j :: 0 <= j < i.value ==> !RouteMatches(routes[j], m, path)
    ensures i.None? ==> forall j :: 0 <= j < |routes| ==> !RouteMatches(routes[j], m, path)
  {
    FirstMatchFrom(routes, 0, m, path)
  }

  datatype ChainResult = Passed(user: Option<SessionUser>) | Stopped(status: nat, message: string)

  /** Runs a middleware chain on a request with the given cookies and
      `req.user`. */
  function RunChain(chain: seq<Middleware>, cookies: map<string, string>, user: Option<SessionUser>,
                    jwt: Jwt, secret: string): (r: ChainResult)
    ensures chain == [] ==> r == Passed(user)
    ensures r.Stopped? ==> r.status == 401 && (r.message == InvalidTokenMessage || r.message == UnauthorizedAccess)
    ensures r.Passed? && user.Some? ==> r.user.Some?
    ensures r.Passed? && Authenticate in chain ==> r.user.Some?
    ensures |chain| > 0 && chain[0] == Authenticate && GetDataFromRequest(cookies, jwt, secret).None? ==>
              r == Stopped(401, InvalidTokenMessage)
    // role checks alone pass `req.user` on exactly when its role is on every list
    ensures (forall i :: 0 <= i < |chain| ==> chain[i].AuthorizeRoles?) ==>
              r == if forall i :: 0 <= i < |chain| ==> user.Some? && user.value.role in chain[i].allowed
                   then Passed(user) else Stopped(401, UnauthorizedAccess)
    // authentication followed by role checks admits the token's session exactly
    // when its role is on every list
    ensures && |chain| > 0 && chain[0] == Authenticate
            && (forall i :: 1 <= i < |chain| ==> chain[i].AuthorizeRoles?)
            && GetDataFromRequest(cookies, jwt, secret).Some? ==>
              var p := GetDataFromRequest(cookies, jwt, secret).value;
              r == if forall i :: 1 <= i < |chain| ==> p.role in chain[i].allowed
                   then Passed(Some(SessionUser(p.userId, p.role))) else Stopped(401, UnauthorizedAccess)
    decreases |chain|
  {
    if chain == [] then Passed(user)
    else
      var (gate, after) := match chain[0]
        case Authenticate => AuthenticateStep(GetDataFromRequest(cookies, jwt, secret), user)
        case AuthorizeRoles(allowed) => (AuthorizeRole(allowed, user), user);
      match gate
      case Halt(status, message) => Stopped(status, message)
      case Next => RunChain(chain[1..], cookies, after, jwt, secret)
  }

  /** No route matched (the router passes the request on); a middleware
      answered; or the handler runs with these parameters and `req.user`. */
  datatype Resolution =
    | NoRoute
    | Rejected(status: nat, message: string)
    | Dispatched(handler: Handler, params: map<string, string>, user: Option<SessionUser>)

  /** A request arrives without `req.user`. */
  function Resolve(routes: seq<Route>, m: Method, path: Path, cookies: map<string, string>,
                   jwt: Jwt, secret: string): (r: Resolution)
    ensures r.NoRoute? <==> FirstMatch(routes, m, path).None?
    ensures r.Dispatched? ==>
              var i := FirstMatch(routes, m, path).value;
              r.handler == routes[i].handler && Some(r.params) == PatternParams(routes[i].pattern, path)
    ensures FirstMatch(routes, m, path).Some? ==>
              var c := RunChain(routes[FirstMatch(routes, m, path).value].chain, cookies, None, jwt, secret);
              && (r.Rejected? <==> c.Stopped?)
              && (r.Rejected? ==> r.status == c.status && r.message == c.message)
              && (r.Dispatched? ==> r.user == c.user)
  {
    match FirstMatch(routes, m, path)
    case None => NoRoute
    case Some(i) =>
      match RunChain(routes[i].chain, cookies, None, jwt, secret)
      case Stopped(status, message) => Rejected(status, message)
      case Passed(user) => Dispatched(routes[i].handler, PatternParams(routes[i].pattern, path).value, user)
  }

  /** Every route of the table authenticates first. */
  predicate AuthenticatesFirst(routes: seq<Route>)
  {
    forall i :: 0 <= i < |routes| ==> |routes[i].chain| > 0 && routes[i].chain[0] == Authenticate
  }

  /** In such a table a request without a valid session is refused with the
      middleware's 401 before any handler runs. */
  lemma UnauthenticatedRejected(routes: seq<Route>, m: Method, path: Path, cookies: map<string, string>,
                                jwt: Jwt, secret: string)
    requires AuthenticatesFirst(routes)
    requires GetDataFromRequest(cookies, jwt, secret).None?
    ensures var r := Resolve(routes, m, path, cookies, jwt, secret);
            r.NoRoute? || r == Rejected(401, InvalidTokenMessage)
  {
  }

  /** The chain `[authenticateUser]` passes a request with a valid token,
      with `req.user` set from it. */
  lemma SessionChain(cookies: map<string, string>, jwt: Jwt, secret: string)
    requires GetDataFromRequest(cookies, jwt, secret).Some?
    ensures var p := GetDataFromRequest(cookies, jwt, secret).value;
            RunChain([Authenticate], cookies, None, jwt, secret) == Passed(Some(SessionUser(p.userId, p.role)))
  {
    var p := GetDataFromRequest(cookies, jwt, secret).value;
    var chain := [Authenticate];
    assert chain[1..] == [];
    assert AuthenticateStep(Some(p), None) == (Next, Some(SessionUser(p.userId, p.role)));
  }

  /** The chain `[authenticateUser, authorizeRole(["ADMIN"])]` passes an ADMIN
      session and stops a USER session with 401. */
  lemma AdminChain(cookies: map<string, string>, jwt: Jwt, secret: string)
    requires GetDataFromRequest(cookies, jwt, secret).Some?
    ensures var p := GetDataFromRequest(cookies, jwt, secret).value;
            RunChain([Authenticate, AuthorizeRoles([ADMIN])], cookies, None, jwt, secret)
            == if p.role == ADMIN then Passed(Some(SessionUser(p.userId, p.role))) else Stopped(401, UnauthorizedAccess)
  {
    var p := GetDataFromRequest(cookies, jwt, secret).value;
    var user := Some(SessionUser(p.userId, p.role));
    var chain := [Authenticate, AuthorizeRoles([ADMIN])];
    assert chain[1..] == [AuthorizeRoles([ADMIN])];
    assert chain[1..][1..] == [];
    assert AuthenticateStep(Some(p), None) == (Next, user);
    assert RunChain(chain, cookies, None, jwt, secret) == RunChain(chain[1..], cookies, user, jwt, secret);
    assert AuthorizeRole([ADMIN], user) == if p.role == ADMIN then Next else Halt(401, UnauthorizedAccess);
  }

  /** A route guarded by authentication only hands the handler the session
      read from the token, whatever its role. */
  lemma AuthenticatedOnlyDispatch(routes: seq<Route>, m: Method, path: Path, cookies: map<string, string>,
                                  jwt: Jwt, secret: string, i: nat)
    requires FirstMatch(routes, m, path) == Some(i)
    requires routes[i].chain == [Authenticate]
    requires GetDataFromRequest(cookies, jwt, secret).Some?
    ensures var p := GetDataFromRequest(cookies, jwt, secret).value;
            Resolve(routes, m, path, cookies, jwt, secret)
            == Dispatched(routes[i].handler, PatternParams(routes[i].pattern, path).value, Some(SessionUser(p.userId, p.role)))
  {
    SessionChain(cookies, jwt, secret);
  }

  /** A route guarded by authentication and the ADMIN list admits an ADMIN
      session and refuses a USER session with 401. */
  lemma AdminChainDecision(routes: seq<Route>, m: Method, path: Path, cookies: map<string, string>,
                           jwt: Jwt, secret: string, i: nat)
    requires FirstMatch(routes, m, path) == Some(i)
    requires routes[i].chain == [Authenticate, AuthorizeRoles([ADMIN])]
    requires GetDataFromRequest(cookies, jwt, secret).Some?
    ensures var p := GetDataFromRequest(cookies, jwt, secret).value;
            Resolve(routes, m, path, cookies, jwt, secret)
            == if p.role == ADMIN
               then Dispatched(routes[i].handler, PatternParams(routes[i].pattern, path).value, Some(SessionUser(p.userId, p.role)))
               else Rejected(401, UnauthorizedAccess)
  {
    AdminChain(cookies, jwt, secret);
  }
}

/** The project routes: the admin listing `/all`, registered ahead of `/:id`,
    then routes that need a session and nothing more. */
module ProjectRoutes {
  import opened Basics
  import opened Types
  import opened Foreign
  import opened Http
  import opened Auth
  import opened Authentication
  import opened Authorization
  import opened Router

  function Routes(): (routes: seq<Route>)
    ensures AuthenticatesFirst(routes)
  {
    [ Route(GET, [Lit("all")], [Authenticate, AuthorizeRoles([ADMIN])], ListProjects),
      Route(POST, [], [Authenticate], CreateProject),
      Route(GET, [Param("id")], [Authenticate], GetProject),
      Route(GET, [], [Authenticate], GetUserProjects),
      Route(PUT, [Param("id")], [Authenticate], UpdateProject),
      Route(DELETE, [Param("id")], [Authenticate], DeleteProject) ]
  }

  /** `GET /all` reaches `listProjects` for an ADMIN session, 401 for a USER
      session, and never `getProject`. */
  lemma AllIsAdminListing(cookies: map<string, string>, jwt: Jwt, secret: string)
    requires GetDataFromRequest(cookies, jwt, secret).Some?
    ensures var p := GetDataFromRequest(cookies, jwt, secret).value;
            Resolve(Routes(), GET, ["all"], cookies, jwt, secret)
            == if p.role == ADMIN then Dispatched(ListProjects, map[], Some(SessionUser(p.userId, p.role)))
               else Rejected(401, UnauthorizedAccess)
  {
    AdminChainDecision(Routes(), GET, ["all"], cookies, jwt, secret, 0);
  }

  lemma AllNeverReachesGetProject(cookies: map<string, string>, jwt: Jwt, secret: string)
    ensures var r := Resolve(Routes(), GET, ["all"], cookies, jwt, secret);
            !(r.Dispatched? && r.handler == GetProject)
  {
    assert FirstMatch(Routes(), GET, ["all"]) == Some(0);
  }

  /** Every other project route needs a session only: no role and no owner check. */
  lemma CollectionEndpoints(cookies: map<string, string>, jwt: Jwt, secret: string)
    requires GetDataFromRequest(cookies, jwt, secret).Some?
    ensures var p := GetDataFromRequest(cookies, jwt, secret).value;
            var session := Some(SessionUser(p.userId, p.role));
            && Resolve(Routes(), POST, [], cookies, jwt, secret) == Dispatched(CreateProject, map[], session)
            && Resolve(Routes(), GET, [], cookies, jwt, secret) == Dispatched(GetUserProjects, map[], session)
  {
    AuthenticatedOnlyDispatch(Routes(), POST, [], cookies, jwt, secret, 1);
    AuthenticatedOnlyDispatch(Routes(), GET, [], cookies, jwt, secret, 3);
  }

  /** `GET`, `PUT` and `DELETE /:id`; only `GET /all` is taken by the admin
      listing registered before them, so `PUT /all` and `DELETE /all` still
      reach updateProject and deleteProject. */
  lemma ItemEndpoints(id: string, cookies: map<string, string>, jwt: Jwt, secret: string)
    requires id != ""
    requires GetDataFromRequest(cookies, jwt, secret).Some?
    ensures var p := GetDataFromRequest(cookies, jwt, secret).value;
            var session := Some(SessionUser(p.userId, p.role));
            && (id != "all" ==> Resolve(Routes(), GET, [id], cookies, jwt, secret) == Dispatched(GetProject, map["id" := id], session))
            && Resolve(Routes(), PUT, [id], cookies, jwt, secret) == Dispatched(UpdateProject, map["id" := id], session)
            && Resolve(Routes(), DELETE, [id], cookies, jwt, secret) == Dispatched(DeleteProject, map["id" := id], session)
  {
    if id != "all" {
      ItemEndpoint(GET, 2, id, cookies, jwt, secret);
    }
    ItemEndpoint(PUT, 4, id, cookies, jwt, secret);
    ItemEndpoint(DELETE, 5, id, cookies, jwt, secret);
  }

  /** One `/:id` route, the `k`-th, taken as the first match. */
  lemma ItemEndpoint(m: Method, k: nat, id: string, cookies: map<string, string>, jwt: Jwt, secret: string)
    requires id != "" && k < |Routes()| && Routes()[k].verb == m && Routes()[k].pattern == [Param("id")]
    requires FirstMatch(Routes(), m, [id]) == Some(k)
    requires GetDataFromRequest(cookies, jwt, secret).Some?
    ensures var p := GetDataFromRequest(cookies, jwt, secret).value;
            Resolve(Routes(), m, [id], cookies, jwt, secret)
            == Dispatched(Routes()[k].handler, map["id" := id], Some(SessionUser(p.userId, p.role)))
  {
    assert PatternParams([Param("id")], [id]) == Some(map["id" := id]);
    AuthenticatedOnlyDispatch(Routes(), m, [id], cookies, jwt, secret, k);
  }

  lemma UnauthenticatedRejected(m: Method, path: Path, cookies: map<string, string>, jwt: Jwt, secret: string)
    requires GetDataFromRequest(cookies, jwt, secret).None?
    ensures var r := Resolve(Routes(), m, path, cookies, jwt, secret);
            r.NoRoute? || r == Rejected(401, InvalidTokenMessage)
  {
    Router.UnauthenticatedRejected(Routes(), m, path, cookies, jwt, secret);
  }
}

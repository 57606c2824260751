/** The user routes: the admin edits on `/:id`, then the self-service routes
    on `/`, where `GET /` is registered twice. */
module UserRoutes {
  import opened Basics
  import opened Types
  import opened Foreign
  import opened Http
  import opened Auth
  import opened Authentication
  import opened Authorization
  import opened Router

  const AdminChain := [Authenticate, AuthorizeRoles([ADMIN])]

  function Routes(): (routes: seq<Route>)
    ensures AuthenticatesFirst(routes)
  {
    [ Route(PUT, [Param("id")], AdminChain, UpdateAnyUser),
      Route(DELETE, [Param("id")], AdminChain, DeleteAnyUser),
      Route(GET, [], [Authenticate], ListUsers),
      Route(PUT, [], [Authenticate], UpdateUser),
      Route(DELETE, [], [Authenticate], DeleteUser),
      Route(GET, [], [Authenticate], GetUser) ]
  }

  /** `PUT /:id` and `DELETE /:id` run the admin handlers for an ADMIN
      session only; a USER session gets 401 and no handler runs. */
  lemma AdminEndpoints(id: string, cookies: map<string, string>, jwt: Jwt, secret: string)
    requires id != ""
    requires GetDataFromRequest(cookies, jwt, secret).Some?
    ensures var p := GetDataFromRequest(cookies, jwt, secret).value;
            var session := Some(SessionUser(p.userId, p.role));
            && Resolve(Routes(), PUT, [id], cookies, jwt, secret)
               == (if p.role == ADMIN then Dispatched(UpdateAnyUser, map["id" := id], session) else Rejected(401, UnauthorizedAccess))
            && Resolve(Routes(), DELETE, [id], cookies, jwt, secret)
               == (if p.role == ADMIN then Dispatched(DeleteAnyUser, map["id" := id], session) else Rejected(401, UnauthorizedAccess))
  {
    assert PatternParams([Param("id")], [id]) == Some(map["id" := id]);
    AdminChainDecision(Routes(), PUT, [id], cookies, jwt, secret, 0);
    AdminChainDecision(Routes(), DELETE, [id], cookies, jwt, secret, 1);
  }

  /** `GET`, `PUT` and `DELETE /` need a session and nothing more. */
  lemma SelfEndpoints(cookies: map<string, string>, jwt: Jwt, secret: string)
    requires GetDataFromRequest(cookies, jwt, secret).Some?
    ensures var p := GetDataFromRequest(cookies, jwt, secret).value;
            var session := Some(SessionUser(p.userId, p.role));
            && Resolve(Routes(), GET, [], cookies, jwt, secret) == Dispatched(ListUsers, map[], session)
            && Resolve(Routes(), PUT, [], cookies, jwt, secret) == Dispatched(UpdateUser, map[], session)
            && Resolve(Routes(), DELETE, [], cookies, jwt, secret) == Dispatched(DeleteUser, map[], session)
  {
    AuthenticatedOnlyDispatch(Routes(), GET, [], cookies, jwt, secret, 2);
    AuthenticatedOnlyDispatch(Routes(), PUT, [], cookies, jwt, secret, 3);
    AuthenticatedOnlyDispatch(Routes(), DELETE, [], cookies, jwt, secret, 4);
  }

  /** The second `GET /` is shadowed by the first: `getUser` never runs. */
  lemma GetUserUnreachable(m: Method, path: Path, cookies: map<string, string>, jwt: Jwt, secret: string)
    ensures var r := Resolve(Routes(), m, path, cookies, jwt, secret);
            !(r.Dispatched? && r.handler == GetUser)
  {
  }

  /** Without a valid session every route here answers 401 before its handler. */
  lemma UnauthenticatedRejected(m: Method, path: Path, cookies: map<string, string>, jwt: Jwt, secret: string)
    requires GetDataFromRequest(cookies, jwt, secret).None?
    ensures var r := Resolve(Routes(), m, path, cookies, jwt, secret);
            r.NoRoute? || r == Rejected(401, InvalidTokenMessage)
  {
    Router.UnauthenticatedRejected(Routes(), m, path, cookies, jwt, secret);
  }
}

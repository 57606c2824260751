/** The filter route `GET /tasks`, taking the `status`, `assignedUserId`,
    `skip` and `take` query parameters of `FilterController.FilterQuery`. */
module FilterRoutes {
  import opened Basics
  import opened Types
  import opened Foreign
  import opened Http
  import opened Auth
  import opened Authentication
  import opened Router

  function Routes(): (routes: seq<Route>)
    ensures AuthenticatesFirst(routes)
  {
    [ Route(GET, [Lit("tasks")], [Authenticate], FilterTasks) ]
  }

  /** Any session reaches `filterTasks`; without one the answer is 401 and
      `filterTasks` does not run. */
  lemma Endpoint(cookies: map<string, string>, jwt: Jwt, secret: string)
    ensures var d := GetDataFromRequest(cookies, jwt, secret);
            Resolve(Routes(), GET, ["tasks"], cookies, jwt, secret)
            == if d.None? then Rejected(401, InvalidTokenMessage)
               else Dispatched(FilterTasks, map[], Some(SessionUser(d.value.userId, d.value.role)))
  {
    if GetDataFromRequest(cookies, jwt, secret).Some? {
      AuthenticatedOnlyDispatch(Routes(), GET, ["tasks"], cookies, jwt, secret, 0);
    }
  }
}

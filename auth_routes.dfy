/** The `/signup`, `/signin` and `/signout` routes: no middleware at all. */
module AuthRoutes {
  import opened Basics
  import opened Foreign
  import opened Http
  import opened Router

  function Routes(): (routes: seq<Route>)
    ensures forall i :: 0 <= i < |routes| ==> routes[i].chain == []
  {
    [ Route(POST, [Lit("signup")], [], CreateUser),
      Route(POST, [Lit("signin")], [], SignIn),
      Route(GET, [Lit("signout")], [], SignOut) ]
  }

  /** Each endpoint reaches its handler whatever the cookies, signing out included. */
  lemma Endpoints(cookies: map<string, string>, jwt: Jwt, secret: string)
    ensures Resolve(Routes(), POST, ["signup"], cookies, jwt, secret) == Dispatched(CreateUser, map[], None)
    ensures Resolve(Routes(), POST, ["signin"], cookies, jwt, secret) == Dispatched(SignIn, map[], None)
    ensures Resolve(Routes(), GET, ["signout"], cookies, jwt, secret) == Dispatched(SignOut, map[], None)
  {
  }

  /** No middleware runs here, so no request is ever refused with the
      middleware 401. */
  lemma NeverRejected(m: Method, path: Path, cookies: map<string, string>, jwt: Jwt, secret: string)
    ensures !Resolve(Routes(), m, path, cookies, jwt, secret).Rejected?
  {
    var routes := Routes();
    var i := FirstMatch(routes, m, path);
    if i.Some? {
      assert routes[i.value].chain == [];
    }
  }

  /** Every pattern here is one segment long, so no longer or shorter path matches. */
  lemma SingleSegmentsOnly(m: Method, path: Path, cookies: map<string, string>, jwt: Jwt, secret: string)
    requires |path| != 1
    ensures Resolve(Routes(), m, path, cookies, jwt, secret) == NoRoute
  {
  }
}

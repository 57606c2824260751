/** The `authenticateUser` middleware. */
module Authentication {
  import opened Basics
  import opened Types
  import opened Foreign
  import opened Http
  import opened Auth

  const InvalidTokenMessage := "Unauthorized: Invalid token"

  /** What the middleware does with a decoded payload: answer 401 and leave
      `req.user` alone, or set `req.user` from the payload and call `next`. */
  function AuthenticateStep(decoded: Option<TokenPayload>, user: Option<SessionUser>): (r: (Gate, Option<SessionUser>))
    ensures r.0 == Next <==> decoded.Some?
    ensures decoded.None? ==> r == (Halt(401, InvalidTokenMessage), user)
    ensures decoded.Some? ==> r.1 == Some(SessionUser(decoded.value.userId, decoded.value.role))
  {
    match decoded
    case None => (Halt(401, InvalidTokenMessage), user)
    case Some(p) => (Next, Some(SessionUser(p.userId, p.role)))
  }

  /** Only `req.user` may change; the gate and the new `req.user` are those of
      `AuthenticateStep` on the payload read from the request's cookies. */
  method AuthenticateUser(req: Request, jwt: Jwt, secret: string) returns (gate: Gate)
    modifies req`user
    ensures (gate, req.user) == AuthenticateStep(GetDataFromRequest(req.cookies, jwt, secret), old(req.user))
  {
    var decoded := GetDataFromRequest(req.cookies, jwt, secret);
    if decoded.None? {
      return Halt(401, InvalidTokenMessage);
    }
    req.user := Some(SessionUser(decoded.value.userId, decoded.value.role));
    gate := Next;
  }

  /** A request carrying a cookie issued by sign-in passes, with `req.user`
      holding the identity and role the token was issued for. */
  lemma SignedInRequestPasses(jwt: Jwt, secret: string, cookies: map<string, string>, userId: string, role: Role, prior: Option<SessionUser>)
    requires TokenCookie in cookies && cookies[TokenCookie] == GenerateToken(jwt, secret, userId, role)
    requires cookies[TokenCookie] != ""
    requires jwt.verify(jwt.sign(TokenPayload(userId, role), secret), secret) == Some(TokenPayload(userId, role))
    ensures AuthenticateStep(GetDataFromRequest(cookies, jwt, secret), prior) == (Next, Some(SessionUser(userId, role)))
  {
    GeneratedTokenDecodes(jwt, secret, cookies, userId, role);
  }

  /** Without a `jwtToken` cookie the request is refused with 401. */
  lemma NoCookieRejected(jwt: Jwt, secret: string, cookies: map<string, string>, prior: Option<SessionUser>)
    requires TokenCookie !in cookies
    ensures AuthenticateStep(GetDataFromRequest(cookies, jwt, secret), prior).0 == Halt(401, InvalidTokenMessage)
  {
  }
}

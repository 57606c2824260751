/** Session tokens: the signing secret, `generateToken`, `verifyToken` and
    `getDataFromRequest`, which turns the `jwtToken` cookie into a payload or
    nothing. */
module Auth {
  import opened Basics
  import opened Types
  import opened Foreign

  const TokenCookie := "jwtToken"
  const FallbackSecret := "secret"

  /** `process.env.JWT_SECRET || "secret"`: an unset or empty variable falls
      back to the fixed secret, so the secret in use is never empty. */
  function JwtSecret(env: Option<string>): (secret: string)
    ensures secret != ""
    ensures env.Some? && env.value != "" ==> secret == env.value
    ensures env.None? || env.value == "" ==> secret == FallbackSecret
  {
    if env.Some? && env.value != "" then env.value else FallbackSecret
  }

  /** Signs the claims `{ userId, role }` with the secret; the one-day
      expiry the signer adds (`iat`, `exp`) is not modelled. */
  function GenerateToken(jwt: Jwt, secret: string, userId: string, role: Role): (token: string)
    ensures token == jwt.sign(TokenPayload(userId, role), secret)
  {
    jwt.sign(TokenPayload(userId, role), secret)
  }

  /** Checks the token against the same secret; a token that fails is
      nothing (the verifier's throw, caught by the caller). */
  function VerifyToken(jwt: Jwt, secret: string, token: string): (r: Option<TokenPayload>)
    ensures r == jwt.verify(token, secret)
  {
    jwt.verify(token, secret)
  }

  /** A missing or empty cookie gives nothing; otherwise the cookie is
      verified, and a verification failure also gives nothing. */
  function GetDataFromRequest(cookies: map<string, string>, jwt: Jwt, secret: string): (r: Option<TokenPayload>)
    ensures TokenCookie !in cookies || cookies[TokenCookie] == "" ==> r == None
    ensures TokenCookie in cookies && cookies[TokenCookie] != "" ==>
              r == VerifyToken(jwt, secret, cookies[TokenCookie])
  {
    if TokenCookie !in cookies || cookies[TokenCookie] == "" then None
    else VerifyToken(jwt, secret, cookies[TokenCookie])
  }

  /** When verification inverts signing (a token fresh enough not to have
      expired), the cookie set at sign-in decodes to the claims signed into it. */
  lemma GeneratedTokenDecodes(jwt: Jwt, secret: string, cookies: map<string, string>, userId: string, role: Role)
    requires TokenCookie in cookies && cookies[TokenCookie] == GenerateToken(jwt, secret, userId, role)
    requires cookies[TokenCookie] != ""
    requires jwt.verify(jwt.sign(TokenPayload(userId, role), secret), secret) == Some(TokenPayload(userId, role))
    ensures GetDataFromRequest(cookies, jwt, secret) == Some(TokenPayload(userId, role))
  {
  }
}

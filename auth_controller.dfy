/** `signIn` and `signOut`: the credential check and the `jwtToken` cookie. */
module AuthController {
  import opened Basics
  import opened Types
  import opened Foreign
  import opened Schema
  import opened Database
  import opened Http
  import opened Auth
  import AuthValidator
  import UserController

  const InvalidCredentials := "Invalid credentials"
  const SignedIn := "Signed in successfully"
  const SignedOut := "Signed out successfully"

  /** One day, in milliseconds. */
  const SessionLifetimeMs: nat := 24 * 60 * 60 * 1000

  /** The session cookie is HTTP-only, same-site strict, secure in
      production, and lives one day. */
  function SessionCookieOptions(production: bool): (o: CookieOptions)
    ensures o.httpOnly && o.sameSite == Strict && o.secure == production
    ensures o.maxAgeMs == Some(86_400_000)
  {
    CookieOptions(true, production, Strict, Some(SessionLifetimeMs))
  }

  /** Clearing uses the session cookie's attributes without its lifetime,
      so the browser drops the same cookie. */
  function ClearCookieOptions(production: bool): (o: CookieOptions)
    ensures o == SessionCookieOptions(production).(maxAgeMs := None)
  {
    CookieOptions(true, production, Strict, None)
  }

  /** User `id` is stored under `email` and its hash matches `password`. */
  predicate Credentials(users: map<Id, User>, id: Id, email: string, password: string, bcrypt: Bcrypt)
  {
    id in users && users[id].email == email && bcrypt.compare(password, users[id].password)
  }

  /** No two users share `email`, as the column's uniqueness promises. */
  ghost predicate HeldOnce(users: map<Id, User>, email: string)
  {
    forall a, b :: a in users && b in users && users[a].email == email && users[b].email == email ==> a == b
  }

  /** Sign-in: a bad body is 400; an unknown email and a wrong password are
      the same 401; success is 200 with only a message and sets the session
      cookie to a token for the user's id and role. The store is not touched. */
  method SignIn(db: Store, body: Fields, isEmail: EmailCheck, bcrypt: Bcrypt, jwt: Jwt, secret: string,
                production: bool, res: Response) returns (out: Outcome)
    modifies res`cookies
    ensures var v := AuthValidator.ParseSignIn(body, isEmail);
      && (v.Failure? ==> out == Outcome(400, Issues(v.error)) && res.cookies == old(res.cookies))
      && (v.Success? && !EmailTaken(db.users, v.value.email) ==>
            out == Outcome(401, Message(InvalidCredentials)) && res.cookies == old(res.cookies))
      && (v.Success? && (forall id :: !Credentials(db.users, id, v.value.email, v.value.password, bcrypt)) ==>
            out == Outcome(401, Message(InvalidCredentials)) && res.cookies == old(res.cookies))
      && (out.status == 200 ==>
            && v.Success? && out == Outcome(200, Message(SignedIn))
            && exists id :: && Credentials(db.users, id, v.value.email, v.value.password, bcrypt)
                            && res.cookies == old(res.cookies)[TokenCookie :=
                                 Issued(GenerateToken(jwt, secret, id, db.users[id].role), SessionCookieOptions(production))])
      && (v.Success? && HeldOnce(db.users, v.value.email) ==>
            (out.status == 200 <==> exists id :: Credentials(db.users, id, v.value.email, v.value.password, bcrypt)))
    ensures out.status in {200, 400, 401}
  {
    var v := AuthValidator.ParseSignIn(body, isEmail);
    if v.Failure? {
      return Outcome(400, Issues(v.error));
    }
    var email, password := v.value.email, v.value.password;
    if !EmailTaken(db.users, email) {
      return Outcome(401, Message(InvalidCredentials));
    }
    var id :| id in db.users && db.users[id].email == email;
    var user := db.users[id];
    if !bcrypt.compare(password, user.password) {
      return Outcome(401, Message(InvalidCredentials));
    }
    assert Credentials(db.users, id, email, password, bcrypt);
    var token := GenerateToken(jwt, secret, id, user.role);
    res.SetCookie(TokenCookie, token, SessionCookieOptions(production));
    out := Outcome(200, Message(SignedIn));
  }

  /** Sign-out always succeeds and clears the session cookie. */
  method SignOut(production: bool, res: Response) returns (out: Outcome)
    modifies res`cookies
    ensures out == Outcome(200, Message(SignedOut))
    ensures res.cookies == old(res.cookies)[TokenCookie := Cleared(ClearCookieOptions(production))]
  {
    res.ClearCookie(TokenCookie, ClearCookieOptions(production));
    out := Outcome(200, Message(SignedOut));
  }

  /** Registering and then signing in with the same email and password
      succeeds, and the session cookie decodes to the new user with role USER. */
  method SignUpThenSignIn(db: Store, body: Fields, isEmail: EmailCheck, bcrypt: Bcrypt, salt: string, newId: Id,
                          jwt: Jwt, secret: string, production: bool, res: Response)
    returns (signUp: Outcome, signIn: Outcome)
    requires newId !in db.users
    requires AuthValidator.ParseSignUp(body, isEmail).Success?
    requires !EmailTaken(db.users, body["email"])
    requires bcrypt.compare(body["password"], bcrypt.hash(body["password"], salt))
    requires jwt.verify(jwt.sign(TokenPayload(newId, USER), secret), secret) == Some(TokenPayload(newId, USER))
    requires jwt.sign(TokenPayload(newId, USER), secret) != ""
    modifies db, res`cookies
    ensures signUp.status == 201 && signIn.status == 200
    ensures TokenCookie in res.cookies && res.cookies[TokenCookie].Issued?
    ensures GetDataFromRequest(map[TokenCookie := res.cookies[TokenCookie].value], jwt, secret)
            == Some(TokenPayload(newId, USER))
  {
    AuthValidator.SignUpImpliesSignIn(body, isEmail);
    signUp := UserController.CreateUser(db, body, isEmail, bcrypt, salt, newId);
    assert Credentials(db.users, newId, body["email"], body["password"], bcrypt);
    assert HeldOnce(db.users, body["email"]);
    signIn := SignIn(db, body, isEmail, bcrypt, jwt, secret, production, res);
  }
}

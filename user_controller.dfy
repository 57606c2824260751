/** The user handlers: registration, the admin list, profile changes by an
    admin or by the session's own user, deletion, and the single-user read. */
module UserController {
  import opened Basics
  import opened Types
  import opened Foreign
  import opened Schema
  import opened Database
  import opened Http
  import AuthValidator
  import UserValidator

  const UserExists := "User already exists"
  const UserCreated := "User created successfully"
  const UserNotFound := "User not found"
  const UserDeleted := "User deleted successfully"
  const InvalidToken := "Unauthorized: Invalid token"
  const InternalError := "Internal Server Error"

  /** The row `createUser` stores: the hash of the password, never the
      plaintext, and the role the store defaults to, never one from the body. */
  function RegisteredUser(d: AuthValidator.SignUpData, bcrypt: Bcrypt, salt: string): User
  {
    User(d.name, d.email, bcrypt.hash(d.password, salt), USER)
  }

  /** Registration: a bad body is 400 with its issues, a known email is 400,
      otherwise exactly one user with a fresh id is added (201). */
  method CreateUser(db: Store, body: Fields, isEmail: EmailCheck, bcrypt: Bcrypt, salt: string, newId: Id)
    returns (out: Outcome)
    requires newId !in db.users
    modifies db
    ensures var v := AuthValidator.ParseSignUp(body, isEmail);
      && (v.Failure? ==> out == Outcome(400, Issues(v.error)) && unchanged(db))
      && (v.Success? && EmailTaken(old(db.users), v.value.email) ==>
            out == Outcome(400, Message(UserExists)) && unchanged(db))
      && (v.Success? && !EmailTaken(old(db.users), v.value.email) ==>
            && out == Outcome(201, Message(UserCreated))
            && db.users == old(db.users)[newId := RegisteredUser(v.value, bcrypt, salt)]
            && db.projects == old(db.projects) && db.tasks == old(db.tasks))
    ensures EmailsUnique(old(db.users)) ==> EmailsUnique(db.users)
  {
    var v := AuthValidator.ParseSignUp(body, isEmail);
    if v.Failure? {
      return Outcome(400, Issues(v.error));
    }
    var data := v.value;
    if EmailTaken(db.users, data.email) {
      return Outcome(400, Message(UserExists));
    }
    var hashed := bcrypt.hash(data.password, salt);
    db.users := db.users[newId := User(data.name, data.email, hashed, USER)];
    out := Outcome(201, Message(UserCreated));
  }

  /** Every user whose role is not ADMIN, and no other. */
  function ListUsers(users: map<Id, User>): (out: Outcome)
    ensures out.status == 200 && out.payload.UserList?
    ensures forall id :: id in out.payload.users <==> id in users && users[id].role != ADMIN
    ensures forall id :: id in out.payload.users ==> out.payload.users[id] == users[id]
  {
    Outcome(200, UserList(map id | id in users && users[id].role != ADMIN :: users[id]))
  }

  /** The admin edit of user `id`: the body is validated before the lookup;
      on success only that user's name and email change. */
  method UpdateAnyUser(db: Store, id: Id, body: Fields, isEmail: EmailCheck) returns (out: Outcome)
    modifies db
    ensures var v := UserValidator.ParseUserChange(body, isEmail);
      && (v.Failure? ==> out == Outcome(400, Issues(v.error)) && unchanged(db))
      && (v.Success? && id !in old(db.users) ==> out == Outcome(404, Message(UserNotFound)) && unchanged(db))
      && (v.Success? && id in old(db.users) ==>
            var updated := old(db.users)[id].(name := v.value.name, email := v.value.email);
            && out == Outcome(200, UserRecord(id, updated))
            && db.users == old(db.users)[id := updated]
            && db.projects == old(db.projects) && db.tasks == old(db.tasks))
    ensures id in db.users ==>
              db.users[id].password == old(db.users)[id].password && db.users[id].role == old(db.users)[id].role
  {
    var v := UserValidator.ParseUserChange(body, isEmail);
    if v.Failure? {
      return Outcome(400, Issues(v.error));
    }
    if id !in db.users {
      return Outcome(404, Message(UserNotFound));
    }
    var user := db.users[id];
    user := user.(email := v.value.email);
    user := user.(name := v.value.name);
    db.users := db.users[id := user];
    out := Outcome(200, UserRecord(id, user));
  }

  /** The session user's own edit: the body is validated first, then the
      session id (absent or empty is 401); the target is always the session's
      user, never an id from the request. `prisma.user.update` on a missing
      row throws, which the handler turns into 500. */
  method UpdateUser(db: Store, session: Option<SessionUser>, body: Fields, isEmail: EmailCheck) returns (out: Outcome)
    modifies db
    ensures var v := UserValidator.ParseUserChange(body, isEmail);
      && (v.Failure? ==> out == Outcome(400, Issues(v.error)) && unchanged(db))
      && (v.Success? && (session.None? || session.value.id == "") ==>
            out == Outcome(401, Message(InvalidToken)) && unchanged(db))
      && (v.Success? && session.Some? && session.value.id != "" && session.value.id !in old(db.users) ==>
            out == Outcome(500, Message(InternalError)) && unchanged(db))
      && (v.Success? && session.Some? && session.value.id != "" && session.value.id in old(db.users) ==>
            var id := session.value.id;
            var updated := old(db.users)[id].(name := v.value.name, email := v.value.email);
            && out == Outcome(200, UserRecord(id, updated))
            && db.users == old(db.users)[id := updated]
            && db.projects == old(db.projects) && db.tasks == old(db.tasks))
  {
    var v := UserValidator.ParseUserChange(body, isEmail);
    if v.Failure? {
      return Outcome(400, Issues(v.error));
    }
    if session.None? || session.value.id == "" {
      return Outcome(401, Message(InvalidToken));
    }
    var id := session.value.id;
    if id !in db.users {
      return Outcome(500, Message(InternalError));
    }
    var updated := db.users[id].(name := v.value.name, email := v.value.email);
    db.users := db.users[id := updated];
    out := Outcome(200, UserRecord(id, updated));
  }

  /** The admin delete: 404 for an unknown id, otherwise exactly that user
      is removed. */
  method DeleteAnyUser(db: Store, id: Id) returns (out: Outcome)
    modifies db
    ensures id !in old(db.users) ==> out == Outcome(404, Message(UserNotFound)) && unchanged(db)
    ensures id in old(db.users) ==>
              && out == Outcome(200, Message(UserDeleted))
              && db.users == old(db.users) - {id}
              && db.projects == old(db.projects) && db.tasks == old(db.tasks)
  {
    if id !in db.users {
      return Outcome(404, Message(UserNotFound));
    }
    db.users := db.users - {id};
    out := Outcome(200, Message(UserDeleted));
  }

  /** The session user deletes itself; a missing session id or a user that
      is already gone makes the store call throw, reported as 500. */
  method DeleteUser(db: Store, session: Option<SessionUser>) returns (out: Outcome)
    modifies db
    ensures session.None? || session.value.id !in old(db.users) ==>
              out == Outcome(500, Message(InternalError)) && unchanged(db)
    ensures session.Some? && session.value.id in old(db.users) ==>
              && out == Outcome(200, Message(UserDeleted))
              && db.users == old(db.users) - {session.value.id}
              && db.projects == old(db.projects) && db.tasks == old(db.tasks)
  {
    if session.None? || session.value.id !in db.users {
      return Outcome(500, Message(InternalError));
    }
    db.users := db.users - {session.value.id};
    out := Outcome(200, Message(UserDeleted));
  }

  /** `findUnique` by the `id` route parameter, answering 200 with the user
      or with `null`; without an `id` parameter the store call throws (500). */
  function GetUser(users: map<Id, User>, id: Option<Id>): (out: Outcome)
    ensures id.None? ==> out == Outcome(500, Message(InternalError))
    ensures id.Some? ==> out.status == 200 && out.payload.MaybeUser?
    ensures id.Some? ==> (out.payload.found.Some? <==> id.value in users)
    ensures id.Some? && id.value in users ==> out.payload.found == Some(users[id.value])
  {
    match id
    case None => Outcome(500, Message(InternalError))
    case Some(key) => Outcome(200, MaybeUser(if key in users then Some(users[key]) else None))
  }
}

/** The register route (app/api/auth/register/route.ts): an ADMIN creates a user of any
    role. The checks run in order (session cookie, admin claims, schema, e-mail uniqueness);
    then the user is inserted with a hashed password and, for a CLIENT or an EMPLOYEE, a
    profile named after the e-mail. Token verification, hashing and the e-mail format check
    are parameters. */
module Register {
  import opened Common
  import opened Store
  import opened Schemas

  /** Where the ladder ends: a refusal with its status and message, or the input to insert. */
  datatype Ladder = Refuse(status: int, message: string) | Proceed(input: RegisterInput)

  function RegisterLadder(token: Option<string>, verify: string -> Option<Payload>, body: Body,
                          isEmail: string -> bool, users: seq<User>): (l: Ladder)
    ensures !Present(token) ==> l == Refuse(401, "Unauthorized")
    ensures l.Refuse? && l.status == 401 <==> !Present(token)
    ensures Present(token) && (verify(token.value).None? || verify(token.value).value.role != ADMIN)
            ==> l == Refuse(403, "Forbidden")
    ensures l.Refuse? && l.status == 403 <==>
      Present(token) && (verify(token.value).None? || verify(token.value).value.role != ADMIN)
    // an admin with a valid body for a new e-mail gets through
    ensures l.Proceed? <==>
      Present(token) && verify(token.value).Some? && verify(token.value).value.role == ADMIN
      && ParseRegister(body, isEmail).Some? && FindUserByEmail(users, ParseRegister(body, isEmail).value.email).None?
    ensures l.Refuse? ==> l.status in {400, 401, 403, 409}
    ensures l.Refuse? && l.status == 400 <==>
      Present(token) && verify(token.value).Some? && verify(token.value).value.role == ADMIN
      && ParseRegister(body, isEmail).None?
    ensures l.Refuse? && l.status == 409 <==>
      Present(token) && verify(token.value).Some? && verify(token.value).value.role == ADMIN
      && ParseRegister(body, isEmail).Some? && FindUserByEmail(users, ParseRegister(body, isEmail).value.email).Some?
    ensures l.Proceed? ==>
      Present(token) && verify(token.value).Some? && verify(token.value).value.role == ADMIN
      && ParseRegister(body, isEmail) == Some(l.input)
      && forall i :: 0 <= i < |users| ==> users[i].email != l.input.email
  {
    if !Present(token) then Refuse(401, "Unauthorized")
    else
      var claims := verify(token.value);
      if claims.None? || claims.value.role != ADMIN then Refuse(403, "Forbidden")
      else
        match ParseRegister(body, isEmail)
        case None => Refuse(400, "")  // the message is the schema error text, not modelled
        case Some(input) =>
          if FindUserByEmail(users, input.email).Some? then Refuse(409, "user already existed")
          else Proceed(input)
  }

  /** The reply message on success: the role and the new user's id. */
  function CreatedMessage(role: Role, id: Id): string {
    RoleName(role) + " created with id: " + id
  }

  /** POST. `newUserId` and `newProfileId` are the ids the store assigns, `now` the join date
      of an employee profile, `hash` the password hash. */
  method RegisterUser(db: Database, token: Option<string>, verify: string -> Option<Payload>, body: Body,
                      isEmail: string -> bool, hash: string -> string,
                      newUserId: Id, newProfileId: Id, now: int) returns (reply: Reply<()>)
    requires db.Valid()
    requires forall i :: 0 <= i < |db.users| ==> db.users[i].id != newUserId
    modifies db
    ensures db.Valid()
    ensures db.messages == old(db.messages) && db.projects == old(db.projects)
    ensures db.assignments == old(db.assignments) && db.services == old(db.services) && db.requests == old(db.requests)
    ensures reply.status == 201 <==> RegisterLadder(token, verify, body, isEmail, old(db.users)).Proceed?
    ensures RegisterLadder(token, verify, body, isEmail, old(db.users)).Refuse? ==>
      reply.status == RegisterLadder(token, verify, body, isEmail, old(db.users)).status
      && db.users == old(db.users) && db.clients == old(db.clients) && db.employees == old(db.employees)
    ensures RegisterLadder(token, verify, body, isEmail, old(db.users)).Proceed? ==>
      var input := RegisterLadder(token, verify, body, isEmail, old(db.users)).input;
      var u := User(newUserId, input.email, hash(input.password), input.role);
      reply == Reply(201, CreatedMessage(input.role, newUserId), None)
      && db.users == old(db.users) + [u]
      && db.clients == old(db.clients) + (if input.role == CLIENT then [Client(newProfileId, newUserId, input.email)] else [])
      && db.employees == old(db.employees)
         + (if input.role == EMPLOYEE then [Employee(newProfileId, newUserId, input.email, now)] else [])
  {
    var ladder := RegisterLadder(token, verify, body, isEmail, db.users);
    if ladder.Refuse? {
      return Reply(ladder.status, ladder.message, None);
    }
    var input := ladder.input;
    var created := User(newUserId, input.email, hash(input.password), input.role);
    db.users := db.users + [created];
    if input.role == CLIENT {
      db.clients := db.clients + [Client(newProfileId, newUserId, input.email)];
    } else if input.role == EMPLOYEE {
      db.employees := db.employees + [Employee(newProfileId, newUserId, input.email, now)];
    }
    return Reply(201, CreatedMessage(input.role, newUserId), None);
  }

  /** Once a registration has gone through, the same request again is refused with 409. */
  lemma {:induction false} RegisterTwiceConflicts(token: Option<string>, verify: string -> Option<Payload>, body: Body,
                                                 isEmail: string -> bool, users: seq<User>, u: User)
    requires RegisterLadder(token, verify, body, isEmail, users).Proceed?
    requires u.email == RegisterLadder(token, verify, body, isEmail, users).input.email
    ensures RegisterLadder(token, verify, body, isEmail, users + [u]) == Refuse(409, "user already existed")
  {
    var users' := users + [u];
    assert users'[|users|].email == u.email;
  }
}

/** The registration handler: a new user chooses a role and an account type that
    agree with each other, and is stored with a fresh `accountId`. It needs no token. */
module Register {
  import opened Wrappers
  import opened Documents
  import opened Database
  import opened Http

  datatype RegisterBody = RegisterBody(
    username: Option<string>,
    password: Option<string>,
    role: Option<string>,
    accountType: Option<string>)

  predicate Complete(b: RegisterBody)
  {
    Present(b.username) && Present(b.password) && Present(b.role) && Present(b.accountType)
  }

  /** The role and account type combinations registration accepts: an administrator
      has the `admin` account type, a user one of the three tiers. */
  predicate ValidPair(role: string, accountType: string)
  {
    || (role == "admin" && accountType == "admin")
    || (role == "user" && accountType in {"reguler", "premium", "eksklusif"})
  }

  /** The checks before the database is opened, in their order, each with its message. */
  function Validate(verb: string, b: RegisterBody): (r: Option<Response>)
    ensures r.None? <==> verb == "POST" && Complete(b) && ValidPair(b.role.value, b.accountType.value)
    ensures r.Some? ==> r.value.code in {400, 405}
    ensures r.Some? && r.value.code == 405 <==> verb != "POST"
  {
    if verb != "POST" then Some(Fail(405, "Method Not Allowed."))
    else if !Complete(b) then Some(Fail(400, "Missing required fields."))
    else
      var role, accountType := b.role.value, b.accountType.value;
      if role != "user" && role != "admin" then Some(Fail(400, "Invalid role."))
      else if accountType !in {"reguler", "premium", "eksklusif"} && accountType != "admin" then
        Some(Fail(400, "Invalid account type."))
      else if role == "admin" && accountType != "admin" then
        Some(Fail(400, "Admin role must have admin account type."))
      else if role == "user" && accountType == "admin" then
        Some(Fail(400, "User role cannot have admin account type."))
      else None
  }

  /** A registered user is an administrator exactly when their account type is `admin`. */
  lemma AdminExactlyWhenAdminAccount(verb: string, b: RegisterBody)
    requires Validate(verb, b).None?
    ensures b.role.value == "admin" <==> b.accountType.value == "admin"
  {
  }

  /** The stored document: the hashed password, a fresh `accountId` and `lastLogin` null. */
  function NewUser(b: RegisterBody, hashed: string, uuid: string, now: Time): (u: User)
    requires Complete(b)
    ensures u.username == b.username.value && u.role == b.role.value && u.accountType == b.accountType.value
    ensures u.password == hashed && u.accountId == Some(uuid) && u.lastLogin.None? && u.createdAt == now
  {
    User(0, b.username.value, hashed, b.role.value, b.accountType.value, Some(uuid), now, None)
  }

  /** `hashed` is the bcrypt hash of the password, `uuid` the `uuidv4()` value. */
  method Handle(db: Store, verb: string, body: RegisterBody, hashed: string, uuid: string, now: Time)
    returns (resp: Response)
    requires db.Valid()
    modifies db
    ensures db.Valid()
    ensures db.configs == old(db.configs) && db.panels == old(db.panels)
    ensures UniqueKeys(old(db.users), UserName) ==> UniqueKeys(db.users, UserName)
    ensures Validate(verb, body).Some? ==> resp == Validate(verb, body).value && db.users == old(db.users)
    ensures Validate(verb, body).None? && FindFirst(old(db.users), UserName, body.username.value).Some? ==>
      resp == Fail(409, "Username already exists.") && db.users == old(db.users)
    ensures Validate(verb, body).None? && FindFirst(old(db.users), UserName, body.username.value).None? ==>
      && db.users == old(db.users) + [NewUser(body, hashed, uuid, now).(oid := old(db.nextId))]
      && resp == Response(201, Registered(body.username.value, body.password.value, body.accountType.value))
    ensures resp.code == 201 <==> |db.users| == |old(db.users)| + 1
  {
    var invalid := Validate(verb, body);
    if invalid.Some? {
      return invalid.value;
    }
    if FindFirst(db.users, UserName, body.username.value).Some? {
      return Fail(409, "Username already exists.");
    }
    ghost var before := db.users;
    var oid := db.InsertUser(NewUser(body, hashed, uuid, now));
    if UniqueKeys(before, UserName) {
      UniqueAppend(before, UserName, NewUser(body, hashed, uuid, now).(oid := oid));
    }
    resp := Response(201, Registered(body.username.value, body.password.value, body.accountType.value));
  }
}

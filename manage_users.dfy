/** The administration handler of `users`: GET lists the users without their
    passwords, POST creates one, PUT updates the fields supplied, DELETE removes one. */
module ManageUsers {
  import opened Wrappers
  import opened Documents
  import opened Database
  import opened Http
  import opened Auth

  /** The fields of the request body that one method or another reads. */
  datatype UserBody = UserBody(
    id: Option<string>,
    username: Option<string>,
    password: Option<string>,
    role: Option<string>,
    accountType: Option<string>,
    newPassword: Option<string>)

  predicate Complete(b: UserBody)
  {
    Present(b.username) && Present(b.password) && Present(b.role) && Present(b.accountType)
  }

  /** GET: `find({}, { projection: { password: 0 } })`. */
  function Views(users: seq<User>): (r: seq<UserView>)
    ensures |r| == |users|
    ensures forall i :: 0 <= i < |users| ==> r[i] == View(users[i])
  {
    if users == [] then [] else [View(users[0])] + Views(users[1..])
  }

  /** The document POST inserts: no `accountId`, `lastLogin` null, the hashed password,
      and no check that role and account type agree. */
  function NewUser(b: UserBody, hashed: string, now: Time): (u: User)
    requires Complete(b)
    ensures u.username == b.username.value && u.role == b.role.value && u.accountType == b.accountType.value
    ensures u.password == hashed && u.accountId.None? && u.lastLogin.None? && u.createdAt == now
  {
    User(0, b.username.value, hashed, b.role.value, b.accountType.value, None, now, None)
  }

  /** The `$set` PUT builds: a field is set exactly when the body supplies a truthy
      value for it, the password as the hash of `newPassword`. */
  function ChangeOf(b: UserBody, hashed: string): UserSet
  {
    UserSet(if Present(b.username) then b.username else None,
            if Present(b.role) then b.role else None,
            if Present(b.accountType) then b.accountType else None,
            if Present(b.newPassword) then Some(hashed) else None)
  }

  /** The builder, one field at a time. */
  method BuildChange(b: UserBody, hashed: string) returns (change: UserSet)
    ensures change == ChangeOf(b, hashed)
  {
    change := UserSet(None, None, None, None);
    if Present(b.username) {
      change := change.(username := b.username);
    }
    if Present(b.role) {
      change := change.(role := b.role);
    }
    if Present(b.accountType) {
      change := change.(accountType := b.accountType);
    }
    if Present(b.newPassword) {
      change := change.(password := Some(hashed));
    }
  }

  /** PUT changes the supplied fields and no other field of the user. */
  lemma PutChangesOnlySupplied(u: User, b: UserBody, hashed: string)
    ensures var r := ApplyUserSet(u, ChangeOf(b, hashed));
      && r.oid == u.oid && r.accountId == u.accountId && r.createdAt == u.createdAt && r.lastLogin == u.lastLogin
      && r.username == (if Present(b.username) then b.username.value else u.username)
      && r.role == (if Present(b.role) then b.role.value else u.role)
      && r.accountType == (if Present(b.accountType) then b.accountType.value else u.accountType)
      && r.password == (if Present(b.newPassword) then hashed else u.password)
  {
  }

  /** A PUT that supplies nothing to change leaves the user as it is (and so answers 404). */
  lemma EmptyPutIsNoOp(u: User, b: UserBody, hashed: string)
    requires !Present(b.username) && !Present(b.role) && !Present(b.accountType) && !Present(b.newPassword)
    ensures ApplyUserSet(u, ChangeOf(b, hashed)) == u
  {
  }

  /** PUT does not check the new username against the others, unlike POST and
      registration: renaming a user onto another's name breaks username uniqueness. */
  lemma PutCanDuplicateUsername(users: seq<User>, i: nat, j: nat, b: UserBody, hashed: string)
    requires i < |users| && j < |users| && i != j
    requires b.username == Some(users[j].username) && users[j].username != ""
    ensures !UniqueKeys(users[i := ApplyUserSet(users[i], ChangeOf(b, hashed))], UserName)
  {
    var s := users[i := ApplyUserSet(users[i], ChangeOf(b, hashed))];
    assert UserName(s[i]) == UserName(s[j]);
  }

  const ServerError := "Internal server error."

  /** What POST did: 400 or 409 with the users unchanged, or exactly one user appended
      under the next `_id` (201), which keeps usernames unique. */
  twostate predicate Created(db: Store, body: UserBody, hashed: string, now: Time, resp: Response)
    reads db
  {
    if !Complete(body) then
      resp == Fail(400, "Missing required fields.") && db.users == old(db.users)
    else if FindFirst(old(db.users), UserName, body.username.value).Some? then
      resp == Fail(409, "Username already exists.") && db.users == old(db.users)
    else
      && resp == Response(201, Message(true, "User created successfully."))
      && db.users == old(db.users) + [NewUser(body, hashed, now).(oid := old(db.nextId))]
      && (UniqueKeys(old(db.users), UserName) ==> UniqueKeys(db.users, UserName))
  }

  /** What PUT did: 400 without an id, 500 for an id that is not an ObjectId, 404 when
      no user has it; otherwise that user got the update, and the answer is 200 exactly
      when the users changed. */
  twostate predicate Updated(db: Store, body: UserBody, hashed: string, resp: Response)
    reads db
  {
    if !Present(body.id) then
      resp == Fail(400, "User ID is required.") && db.users == old(db.users)
    else if ParseObjectId(body.id.value).None? then
      resp == Fail(500, ServerError) && db.users == old(db.users)
    else match FindFirst(old(db.users), UserKey, ParseObjectId(body.id.value).value)
      case None =>
        resp == Fail(404, "User not found or no changes were made.") && db.users == old(db.users)
      case Some(i) =>
        && db.users == old(db.users)[i := ApplyUserSet(old(db.users)[i], ChangeOf(body, hashed))]
        && resp == if db.users == old(db.users)
                   then Fail(404, "User not found or no changes were made.")
                   else Response(200, Message(true, "User updated successfully."))
  }

  /** What DELETE did: 400 or 500 with the users unchanged; otherwise the user with the
      id is removed (404 when there was none), which keeps usernames unique. */
  twostate predicate Deleted(db: Store, body: UserBody, resp: Response)
    reads db
  {
    if !Present(body.id) then
      resp == Fail(400, "User ID is required.") && db.users == old(db.users)
    else if ParseObjectId(body.id.value).None? then
      resp == Fail(500, ServerError) && db.users == old(db.users)
    else
      var oid := ParseObjectId(body.id.value).value;
      && db.users == DeleteFirst(old(db.users), UserKey, oid)
      && (UniqueKeys(old(db.users), UserName) ==> UniqueKeys(db.users, UserName))
      && resp == if FindFirst(old(db.users), UserKey, oid).None?
                 then Fail(404, "User not found.")
                 else Response(200, Message(true, "User deleted successfully."))
  }

  method Create(db: Store, body: UserBody, hashed: string, now: Time) returns (resp: Response)
    requires db.Valid()
    modifies db
    ensures db.Valid()
    ensures db.configs == old(db.configs) && db.panels == old(db.panels)
    ensures Created(db, body, hashed, now, resp)
  {
    if !Complete(body) {
      return Fail(400, "Missing required fields.");
    }
    if FindFirst(db.users, UserName, body.username.value).Some? {
      return Fail(409, "Username already exists.");
    }
    ghost var before := db.users;
    var oid := db.InsertUser(NewUser(body, hashed, now));
    if UniqueKeys(before, UserName) {
      UniqueAppend(before, UserName, NewUser(body, hashed, now).(oid := oid));
    }
    return Response(201, Message(true, "User created successfully."));
  }

  method Update(db: Store, body: UserBody, hashed: string) returns (resp: Response)
    requires db.Valid()
    modifies db
    ensures db.Valid()
    ensures db.configs == old(db.configs) && db.panels == old(db.panels)
    ensures Updated(db, body, hashed, resp)
  {
    if !Present(body.id) {
      return Fail(400, "User ID is required.");
    }
    var change := BuildChange(body, hashed);
    var oid := ParseObjectId(body.id.value);
    if oid.None? {
      return Fail(500, ServerError);
    }
    ghost var before := db.users;
    var modifiedCount := db.UpdateUserById(oid.value, change);
    if FindFirst(before, UserKey, oid.value).Some? {
      var i := FindFirst(before, UserKey, oid.value).value;
      assert db.users == before <==> ApplyUserSet(before[i], change) == before[i] by {
        if db.users == before {
          assert db.users[i] == before[i];
        }
      }
    }
    if modifiedCount == 0 {
      return Fail(404, "User not found or no changes were made.");
    }
    return Response(200, Message(true, "User updated successfully."));
  }

  method Remove(db: Store, body: UserBody) returns (resp: Response)
    requires db.Valid()
    modifies db
    ensures db.Valid()
    ensures db.configs == old(db.configs) && db.panels == old(db.panels)
    ensures Deleted(db, body, resp)
  {
    if !Present(body.id) {
      return Fail(400, "User ID is required.");
    }
    var oid := ParseObjectId(body.id.value);
    if oid.None? {
      return Fail(500, ServerError);
    }
    ghost var before := db.users;
    var deletedCount := db.DeleteUserById(oid.value);
    if UniqueKeys(before, UserName) {
      UniqueDelete(before, UserKey, oid.value, UserName);
    }
    if deletedCount == 0 {
      return Fail(404, "User not found.");
    }
    return Response(200, Message(true, "User deleted successfully."));
  }

  method Handle(db: Store, header: Option<string>, verify: string -> Option<Identity>, verb: string,
                body: UserBody, hashed: string, now: Time)
    returns (resp: Response)
    requires db.Valid()
    modifies db
    ensures db.Valid()
    ensures db.configs == old(db.configs) && db.panels == old(db.panels)
    ensures var gate := AdminGate(Authenticate(header, verify));
      gate.Some? ==> resp == gate.value && db.users == old(db.users)
    ensures AdminGate(Authenticate(header, verify)).None? && verb == "GET" ==>
      resp == Response(200, UserList(Views(old(db.users)))) && db.users == old(db.users)
    ensures AdminGate(Authenticate(header, verify)).None? && verb == "POST" ==> Created(db, body, hashed, now, resp)
    ensures AdminGate(Authenticate(header, verify)).None? && verb == "PUT" ==> Updated(db, body, hashed, resp)
    ensures AdminGate(Authenticate(header, verify)).None? && verb == "DELETE" ==> Deleted(db, body, resp)
    ensures AdminGate(Authenticate(header, verify)).None? && verb !in {"GET", "POST", "PUT", "DELETE"} ==>
      resp == Fail(405, "Method Not Allowed.") && db.users == old(db.users)
  {
    var gate := AdminGate(Authenticate(header, verify));
    if gate.Some? {
      resp := gate.value;
    } else if verb == "GET" {
      resp := Response(200, UserList(Views(db.users)));
    } else if verb == "POST" {
      resp := Create(db, body, hashed, now);
    } else if verb == "PUT" {
      resp := Update(db, body, hashed);
    } else if verb == "DELETE" {
      resp := Remove(db, body);
    } else {
      resp := Fail(405, "Method Not Allowed.");
    }
  }
}

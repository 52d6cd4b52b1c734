/** The login handler: the first user with the given name and a matching password
    receives a signed token, and their `lastLogin` is stamped. Password comparison
    and token signing are inputs of the model. */
module Login {
  import opened Wrappers
  import opened Documents
  import opened Database
  import opened Http

  const InvalidCredentials := "Invalid credentials."

  /** The token payload: the user's `accountId` as `id`, and their name, role and
      account type. */
  function Payload(u: User): (p: Identity)
    ensures p.id == u.accountId && p.username == u.username
    ensures p.role == u.role && p.accountType == u.accountType
  {
    Identity(u.accountId, u.username, u.role, u.accountType)
  }

  /** The outcome of the checks: a refusal, or the position of the matched user. */
  datatype Outcome = Refused(resp: Response) | Accepted(index: nat)

  /** The checks, in their order; `matches(password, hash)` is the bcrypt comparison.
      An unknown name and a wrong password are refused alike. */
  function Check(verb: string, username: Option<string>, password: Option<string>, users: seq<User>,
                 matches: (string, string) -> bool): (r: Outcome)
    ensures r.Accepted? <==>
      && verb == "POST" && Present(username) && Present(password)
      && FindFirst(users, UserName, username.value).Some?
      && matches(password.value, users[FindFirst(users, UserName, username.value).value].password)
    ensures r.Accepted? ==> r.index < |users| && r.index == FindFirst(users, UserName, username.value).value
    ensures r.Refused? && verb != "POST" ==> r.resp == Fail(405, "Method Not Allowed.")
    ensures r.Refused? && verb == "POST" && !(Present(username) && Present(password)) ==>
      r.resp == Fail(400, "Username and password are required.")
    ensures r.Refused? && verb == "POST" && Present(username) && Present(password) ==>
      r.resp == Fail(401, InvalidCredentials)
  {
    if verb != "POST" then Refused(Fail(405, "Method Not Allowed."))
    else if !Present(username) || !Present(password) then Refused(Fail(400, "Username and password are required."))
    else
      match FindFirst(users, UserName, username.value)
      case None => Refused(Fail(401, InvalidCredentials))
      case Some(i) =>
        if !matches(password.value, users[i].password) then Refused(Fail(401, InvalidCredentials))
        else Accepted(i)
  }

  /** `sign` is the token signer, `now` the time of the request. */
  method Handle(db: Store, verb: string, username: Option<string>, password: Option<string>,
                matches: (string, string) -> bool, sign: Identity -> string, now: Time)
    returns (resp: Response)
    requires db.Valid()
    modifies db
    ensures db.Valid()
    ensures db.configs == old(db.configs) && db.panels == old(db.panels)
    ensures var outcome := Check(verb, username, password, old(db.users), matches);
      outcome.Refused? ==> resp == outcome.resp && db.users == old(db.users)
    ensures var outcome := Check(verb, username, password, old(db.users), matches);
      outcome.Accepted? ==>
        var u := old(db.users)[outcome.index];
        && resp == Response(200, LoggedIn(sign(Payload(u)), Payload(u)))
        && db.users == old(db.users)[outcome.index := u.(lastLogin := Some(now))]
    ensures resp.code == 200 <==> Check(verb, username, password, old(db.users), matches).Accepted?
  {
    var outcome := Check(verb, username, password, db.users, matches);
    if outcome.Refused? {
      return outcome.resp;
    }
    var u := db.users[outcome.index];
    var payload := Payload(u);
    var token := sign(payload);
    IdsBelowUnique(db.users, UserKey, db.nextId);
    FindFirstUnique(db.users, UserKey, outcome.index);
    db.SetLastLogin(u.oid, now);
    resp := Response(200, LoggedIn(token, payload));
  }
}

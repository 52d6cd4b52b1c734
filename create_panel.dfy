/** The create-panel handler: a user asks the provisioning API for a new server of a
    panel type their account tier allows; on success the panel is recorded in
    `userPanels` and a notification is sent. */
module CreatePanel {
  import opened Wrappers
  import opened Documents
  import opened Database
  import opened Http
  import opened Auth

  /** The query string of the request. */
  datatype Query = Query(
    username: Option<string>,
    ram: Option<string>,
    disk: Option<string>,
    cpu: Option<string>,
    hostingPackage: Option<string>,
    panelType: Option<string>)

  predicate Complete(q: Query)
  {
    Present(q.username) && Present(q.ram) && Present(q.disk) && Present(q.cpu)
    && Present(q.hostingPackage) && Present(q.panelType)
  }

  /** The checks that run before the database is opened, in their order: a token,
      a GET, every parameter, and the role `user`. Some(response) when one of them
      answers the request. */
  function Gate(auth: AuthOutcome, verb: string, q: Query): (r: Option<Response>)
    ensures r.None? <==> auth.Authenticated? && verb == "GET" && Complete(q) && auth.user.role == "user"
    ensures r.Some? ==> r.value.code in {400, 401, 403, 405}
    ensures !auth.Authenticated? ==> r == Some(Rejection(auth))
    ensures auth.Authenticated? && verb != "GET" ==> r == Some(Fail(405, "Method Not Allowed."))
    ensures auth.Authenticated? && verb == "GET" && !Complete(q) ==>
      r == Some(Fail(400, "Missing required parameters."))
    ensures auth.Authenticated? && verb == "GET" && Complete(q) && auth.user.role != "user" ==>
      r == Some(Fail(403, "Forbidden. Only users can create panels."))
  {
    if !auth.Authenticated? then Some(Rejection(auth))
    else if verb != "GET" then Some(Fail(405, "Method Not Allowed."))
    else if !Complete(q) then Some(Fail(400, "Missing required parameters."))
    else if auth.user.role != "user" then Some(Fail(403, "Forbidden. Only users can create panels."))
    else None
  }

  /** A wrong method is answered with 405 whatever the parameters and the role. */
  lemma MethodBeforeParameters(user: Identity, verb: string, q: Query)
    requires verb != "GET"
    ensures Gate(Authenticated(user), verb, q) == Some(Fail(405, "Method Not Allowed."))
  {
  }

  /** A missing parameter is answered with 400 whatever the role. */
  lemma ParametersBeforeRole(user: Identity, q: Query)
    requires !Complete(q)
    ensures Gate(Authenticated(user), "GET", q) == Some(Fail(400, "Missing required parameters."))
  {
  }

  /** The panel types each account tier may create; None when the tier is not
      restricted (any account type other than the three tiers). */
  function AllowedPanelTypes(accountType: string): Option<set<string>>
  {
    if accountType == "reguler" then Some({"public"})
    else if accountType == "premium" || accountType == "eksklusif" then Some({"public", "private"})
    else None
  }

  /** The tier checks, each with its message: Some(message) exactly when the tier
      restricts the panel types and the requested one is not among them. */
  function TierDenial(accountType: string, panelType: string): (r: Option<string>)
    ensures r.None? <==> AllowedPanelTypes(accountType).None? || panelType in AllowedPanelTypes(accountType).value
  {
    if accountType == "reguler" && panelType != "public" then
      Some("Akun Anda hanya diizinkan membuat panel public.")
    else if accountType == "premium" && panelType != "public" && panelType != "private" then
      Some("Akun premium tidak bisa membuat panel exclusive.")
    else if accountType == "eksklusif" && panelType != "public" && panelType != "private" then
      Some("Akun eksklusif hanya dapat membuat panel public dan private.")
    else None
  }

  /** The request reaches the provisioning API: it passes the gate, the tier check,
      and a config exists for the panel type. */
  predicate Admitted(auth: AuthOutcome, verb: string, q: Query, configs: seq<PanelConfig>)
  {
    && Gate(auth, verb, q).None?
    && TierDenial(auth.user.accountType, q.panelType.value).None?
    && FindFirst(configs, ConfigType, q.panelType.value).Some?
  }

  /** `new ObjectId(req.user.id)` does not throw: the id is absent (a fresh id is
      generated) or 24 hexadecimal digits. */
  predicate OwnerConvertible(user: Identity)
  {
    user.id.None? || ParseObjectId(user.id.value).Some?
  }

  /** Registration stores a UUID (36 characters) as `accountId` and login puts it
      into the token as `id`: such an owner never converts, so line 81 throws after
      the remote server has been created, and no record is inserted. */
  lemma UuidOwnerNotConvertible(user: Identity)
    requires user.id.Some? && |user.id.value| == 36
    ensures !OwnerConvertible(user)
  {
  }

  /** The record inserted for a new panel: the owner's id as an ObjectId under
      `userId`, the remote identifiers, the requested type and the creation time;
      no `accountId`. `freshFrom` is the first id the generator could hand out. */
  predicate RecordOf(rec: UserPanel, user: Identity, info: ServerInfo, panelType: string, now: Time, freshFrom: ObjectId)
  {
    && rec.idServer == info.idServer && rec.idUser == info.idUser
    && rec.username == info.username && rec.domain == info.domain
    && rec.panelType == panelType && rec.createdAt == now
    && rec.accountId.None?
    && (user.id.Some? ==> ParseObjectId(user.id.value) == Some(rec.userId))
    && (user.id.None? ==> rec.userId >= freshFrom)
    && rec.oid >= freshFrom
  }

  /** A response that reports a provisioned panel: 200 with a remote body whose
      `status` is true. (A remote reply that is ok but has a false `status` is also
      passed through with its own status, which may be 200.) */
  predicate Succeeded(resp: Response)
  {
    resp.code == 200 && resp.body.Remote? && resp.body.data.ApiObject? && resp.body.data.status
  }

  method Handle(db: Store, header: Option<string>, verify: string -> Option<Identity>, verb: string,
                q: Query, provision: Reply<ApiData>, notifyThrew: bool, now: Time)
    returns (resp: Response)
    requires db.Valid()
    modifies db
    ensures db.Valid()
    ensures db.users == old(db.users) && db.configs == old(db.configs)
    // the checks before any store access
    ensures var auth := Authenticate(header, verify);
      Gate(auth, verb, q).Some? ==> resp == Gate(auth, verb, q).value && db.panels == old(db.panels)
    ensures var auth := Authenticate(header, verify);
      Gate(auth, verb, q).None? && TierDenial(auth.user.accountType, q.panelType.value).Some? ==>
        resp == Fail(403, TierDenial(auth.user.accountType, q.panelType.value).value)
    ensures var auth := Authenticate(header, verify);
      Gate(auth, verb, q).None? && TierDenial(auth.user.accountType, q.panelType.value).None?
      && FindFirst(db.configs, ConfigType, q.panelType.value).None? ==>
        resp == Fail(404, "Panel type '" + q.panelType.value + "' not found in configs.")
    // exactly one record is inserted, and only after a successful remote call
    ensures var auth := Authenticate(header, verify);
      if Admitted(auth, verb, q, old(db.configs)) && Provisioned(provision)
         && OwnerConvertible(auth.user) && provision.data.result.Some?
      then
        && |db.panels| == |old(db.panels)| + 1
        && db.panels[..|old(db.panels)|] == old(db.panels)
        && RecordOf(db.panels[|old(db.panels)|], auth.user, provision.data.result.value,
                    q.panelType.value, now, old(db.nextId))
        && resp == (if notifyThrew then Response(500, Crashed) else Response(200, Remote(provision.data)))
      else db.panels == old(db.panels)
    // a remote call that did not succeed: its status (or 500) and its body
    ensures var auth := Authenticate(header, verify);
      Admitted(auth, verb, q, old(db.configs)) && provision.Replied? && !Provisioned(provision)
      && !(IsOk(provision.status) && provision.data.JsonNull?) ==>
        resp == RemoteFailure(provision.status, provision.data, "Failed to create server via external API.")
    // the call threw, or reading the reply or the owner id threw: the catch answers 500
    ensures var auth := Authenticate(header, verify);
      (&& Admitted(auth, verb, q, old(db.configs))
       && (|| provision.Threw?
           || (provision.Replied? && IsOk(provision.status) && provision.data.JsonNull?)
           || (Provisioned(provision) && !OwnerConvertible(auth.user))
           || (Provisioned(provision) && provision.data.result.None?))) ==>
        resp == Response(500, Crashed)
    ensures Succeeded(resp) <==>
      var auth := Authenticate(header, verify);
      && Admitted(auth, verb, q, old(db.configs)) && Provisioned(provision)
      && OwnerConvertible(auth.user) && provision.data.result.Some? && !notifyThrew
  {
    var auth := Authenticate(header, verify);
    var gate := Gate(auth, verb, q);
    if gate.Some? {
      return gate.value;
    }
    var user := auth.user;
    var panelType := q.panelType.value;
    var denial := TierDenial(user.accountType, panelType);
    if denial.Some? {
      return Fail(403, denial.value);
    }
    var config := FindFirst(db.configs, ConfigType, panelType);
    if config.None? {
      return Fail(404, "Panel type '" + panelType + "' not found in configs.");
    }
    match provision {
      case Threw =>
        resp := Response(500, Crashed);
      case Replied(status, data) =>
        if IsOk(status) && data.JsonNull? {
          // reading `apiData.status` of a null body throws
          return Response(500, Crashed);
        }
        if !(IsOk(status) && data.status) {
          return RemoteFailure(status, data, "Failed to create server via external API.");
        }
        var owner: ObjectId;
        if user.id.None? {
          owner := db.NewObjectId();
        } else {
          var parsed := ParseObjectId(user.id.value);
          if parsed.None? {
            return Response(500, Crashed);
          }
          owner := parsed.value;
        }
        if data.result.None? {
          // reading `apiData.result.id_server` of a missing result throws
          return Response(500, Crashed);
        }
        var info := data.result.value;
        var _ := db.InsertPanel(UserPanel(0, owner, None, info.idServer, info.idUser, info.username,
                                          info.domain, panelType, now));
        if notifyThrew {
          return Response(500, Crashed);
        }
        resp := Response(200, Remote(data));
    }
  }
}

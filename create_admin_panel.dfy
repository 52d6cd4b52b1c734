/** The create-admin-panel handler: an administrator asks the provisioning API for an
    administrator account on the server of the `public` config, and the remote answer
    is passed through. Nothing is written locally, so it is a function of the configs
    and of the remote reply. */
module CreateAdminPanel {
  import opened Wrappers
  import opened Documents
  import opened Http
  import opened Auth

  const ForbiddenMessage := "Forbidden. Only administrators can create admin panels."
  const NoConfigMessage := "Public panel configuration not found in database."
  const RemoteFailureMessage := "Failed to create admin panel via external API."

  /** The checks before the database is opened, in their order: a token, the role
      `admin`, a GET, and a `username`. */
  function Gate(auth: AuthOutcome, verb: string, username: Option<string>): (r: Option<Response>)
    ensures r.None? <==> auth.Authenticated? && auth.user.role == "admin" && verb == "GET" && Present(username)
    ensures r.Some? ==> r.value.code in {400, 401, 403, 405}
    ensures !auth.Authenticated? ==> r == Some(Rejection(auth))
    ensures auth.Authenticated? && auth.user.role != "admin" ==> r == Some(Fail(403, ForbiddenMessage))
    ensures auth.Authenticated? && auth.user.role == "admin" && verb != "GET" ==>
      r == Some(Fail(405, "Method Not Allowed."))
    ensures auth.Authenticated? && auth.user.role == "admin" && verb == "GET" && !Present(username) ==>
      r == Some(Fail(400, "Missing required parameters."))
  {
    if !auth.Authenticated? then Some(Rejection(auth))
    else if auth.user.role != "admin" then Some(Fail(403, ForbiddenMessage))
    else if verb != "GET" then Some(Fail(405, "Method Not Allowed."))
    else if !Present(username) then Some(Fail(400, "Missing required parameters."))
    else None
  }

  /** The role is checked before the method: a non-administrator gets 403 whatever
      the method and the parameters. */
  lemma RoleBeforeMethod(user: Identity, verb: string, username: Option<string>)
    requires user.role != "admin"
    ensures Gate(Authenticated(user), verb, username) == Some(Fail(403, ForbiddenMessage))
  {
  }

  /** The answer to the remote reply: passed through with 200 when it is ok and its
      `status` is truthy, otherwise with its own status (or 500). Reading the `status`
      of an ok `null` body throws. */
  function Relay(reply: Reply<ApiData>): (r: Response)
    ensures Provisioned(reply) <==> r.code == 200 && r.body.Remote? && r.body.data.ApiObject? && r.body.data.status
    ensures Provisioned(reply) ==> r == Response(200, Remote(reply.data))
    ensures reply.Replied? && !Provisioned(reply) && !(IsOk(reply.status) && reply.data.JsonNull?) ==>
      r == RemoteFailure(reply.status, reply.data, RemoteFailureMessage)
    ensures r.body.Remote? ==> reply.Replied? && r.body.data == reply.data
    ensures reply.Threw? || (reply.Replied? && IsOk(reply.status) && reply.data.JsonNull?) ==>
      r == Response(500, Crashed)
  {
    match reply
    case Threw => Response(500, Crashed)
    case Replied(status, data) =>
      if IsOk(status) && data.JsonNull? then Response(500, Crashed)
      else if IsOk(status) && data.status then Response(200, Remote(data))
      else RemoteFailure(status, data, RemoteFailureMessage)
  }

  /** The whole handler. The remote call is made only once a `public` config is
      found; before that the reply plays no part in the answer. */
  function Handle(header: Option<string>, verify: string -> Option<Identity>, verb: string,
                  username: Option<string>, configs: seq<PanelConfig>, remote: Reply<ApiData>): (resp: Response)
    ensures var gate := Gate(Authenticate(header, verify), verb, username);
      gate.Some? ==> resp == gate.value
    ensures Gate(Authenticate(header, verify), verb, username).None? && FindFirst(configs, ConfigType, "public").None? ==>
      resp == Fail(404, NoConfigMessage)
    ensures Gate(Authenticate(header, verify), verb, username).None? && FindFirst(configs, ConfigType, "public").Some? ==>
      resp == Relay(remote)
    ensures resp.code == 200 <==>
      && Gate(Authenticate(header, verify), verb, username).None?
      && FindFirst(configs, ConfigType, "public").Some?
      && (Provisioned(remote) || (remote.Replied? && remote.status == 200 && remote.data.ApiObject?))
  {
    var gate := Gate(Authenticate(header, verify), verb, username);
    if gate.Some? then gate.value
    else if FindFirst(configs, ConfigType, "public").None? then Fail(404, NoConfigMessage)
    else Relay(remote)
  }
}

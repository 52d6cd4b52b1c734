/** The delete-panel handler: the panel with the given server id is deleted on the
    provisioning API and then from `userPanels`. The lookup is by server id alone:
    any authenticated caller may delete any panel. */
module DeletePanel {
  import opened Wrappers
  import opened Documents
  import opened Database
  import opened Http
  import opened Auth

  /** The JSON body of a deletion reply that is not 200, read only in that case:
      unreadable (`json()` throws), `null`, or an object with an optional `message`. */
  datatype DeleteData = Unreadable | JsonNull | ErrorBody(message: Option<string>)

  const NotFoundMessage := "Panel tidak ditemukan."
  const ConfigMissingMessage := "Panel configuration not found."
  const DeletedMessage := "Panel berhasil dihapus."
  const PartialFailureMessage := "Panel berhasil dihapus dari server eksternal, tetapi gagal dari database lokal."
  const RemoteFailureMessage := "Gagal menghapus panel dari API eksternal."

  /** The checks before the database is opened: a token, a GET, and an `idServer`. */
  function Gate(auth: AuthOutcome, verb: string, idServer: Option<string>): (r: Option<Response>)
    ensures r.None? <==> auth.Authenticated? && verb == "GET" && Present(idServer)
    ensures r.Some? ==> r.value.code in {400, 401, 403, 405}
    ensures !auth.Authenticated? ==> r == Some(Rejection(auth))
    ensures auth.Authenticated? && verb != "GET" ==> r == Some(Fail(405, "Method Not Allowed."))
    ensures auth.Authenticated? && verb == "GET" && !Present(idServer) ==>
      r == Some(Fail(400, "Missing required parameters."))
  {
    if !auth.Authenticated? then Some(Rejection(auth))
    else if verb != "GET" then Some(Fail(405, "Method Not Allowed."))
    else if !Present(idServer) then Some(Fail(400, "Missing required parameters."))
    else None
  }

  /** Only whether the token verified matters: the role and the id in it never change
      the outcome, as the lookup that follows is by server id alone. */
  lemma GateIgnoresIdentity(a: Identity, b: Identity, verb: string, idServer: Option<string>)
    ensures Gate(Authenticated(a), verb, idServer) == Gate(Authenticated(b), verb, idServer)
  {
  }

  /** The response to a deletion reply other than 200 (or a call that threw). */
  function RemoteRefusal(reply: Reply<DeleteData>): (r: Response)
    requires !(reply.Replied? && reply.status == 200)
    ensures r.code != 200
    ensures reply.Replied? && reply.data.ErrorBody? ==>
      && r.code == StatusOr500(reply.status) && r.body.Message? && !r.body.success
      && r.body.text == (if Present(reply.data.message) then reply.data.message.value else RemoteFailureMessage)
    ensures reply.Threw? || !reply.data.ErrorBody? ==> r == Response(500, Crashed)
  {
    match reply
    case Threw => Response(500, Crashed)
    case Replied(status, data) =>
      match data
      case ErrorBody(message) =>
        Fail(StatusOr500(status), if Present(message) then message.value else RemoteFailureMessage)
      case _ => Response(500, Crashed)
  }

  /** The panel the request targets and its config, both found: the request reaches
      the provisioning API. */
  predicate Reaches(panels: seq<UserPanel>, configs: seq<PanelConfig>, idServer: string)
  {
    && FindFirst(panels, PanelServer, idServer).Some?
    && FindFirst(configs, ConfigType, panels[FindFirst(panels, PanelServer, idServer).value].panelType).Some?
  }

  /** `lostRace` says whether another request deleted the same record while the
      remote call was in flight, so that this request's `deleteOne` finds nothing. */
  method Handle(db: Store, header: Option<string>, verify: string -> Option<Identity>, verb: string,
                idServer: Option<string>, remote: Reply<DeleteData>, lostRace: bool)
    returns (resp: Response)
    requires db.Valid()
    modifies db
    ensures db.Valid()
    ensures db.users == old(db.users) && db.configs == old(db.configs)
    ensures var gate := Gate(Authenticate(header, verify), verb, idServer);
      gate.Some? ==> resp == gate.value && db.panels == old(db.panels)
    ensures Gate(Authenticate(header, verify), verb, idServer).None? ==>
      var target := FindFirst(old(db.panels), PanelServer, idServer.value);
      && (target.None? ==> resp == Fail(404, NotFoundMessage) && db.panels == old(db.panels))
      && (target.Some? && !Reaches(old(db.panels), db.configs, idServer.value) ==>
            resp == Fail(404, ConfigMissingMessage) && db.panels == old(db.panels))
    // remote 200: exactly the found record (by `_id`) is gone, whoever removed it
    ensures (&& Gate(Authenticate(header, verify), verb, idServer).None?
             && Reaches(old(db.panels), db.configs, idServer.value)
             && remote.Replied? && remote.status == 200) ==>
      var i := FindFirst(old(db.panels), PanelServer, idServer.value).value;
      && db.panels == old(db.panels)[..i] + old(db.panels)[i + 1..]
      && resp == (if lostRace then Fail(500, PartialFailureMessage) else Response(200, Message(true, DeletedMessage)))
    // any other remote outcome leaves the store as it was
    ensures (&& Gate(Authenticate(header, verify), verb, idServer).None?
             && Reaches(old(db.panels), db.configs, idServer.value)
             && !(remote.Replied? && remote.status == 200)) ==>
      resp == RemoteRefusal(remote) && db.panels == old(db.panels)
    ensures resp.code == 200 ==> |db.panels| == |old(db.panels)| - 1
  {
    var auth := Authenticate(header, verify);
    var gate := Gate(auth, verb, idServer);
    if gate.Some? {
      return gate.value;
    }
    var target := FindFirst(db.panels, PanelServer, idServer.value);
    if target.None? {
      return Fail(404, NotFoundMessage);
    }
    var panel := db.panels[target.value];
    var config := FindFirst(db.configs, ConfigType, panel.panelType);
    if config.None? {
      return Fail(404, ConfigMissingMessage);
    }
    if !(remote.Replied? && remote.status == 200) {
      return RemoteRefusal(remote);
    }
    IdsBelowUnique(db.panels, PanelKey, db.nextId);
    DeleteFirstUnique(db.panels, PanelKey, target.value);
    if lostRace {
      var _ := db.DeletePanelById(panel.oid);
      assert FindFirst(db.panels, PanelKey, panel.oid).None?;
    }
    var deletedCount := db.DeletePanelById(panel.oid);
    if deletedCount == 1 {
      resp := Response(200, Message(true, DeletedMessage));
    } else {
      resp := Fail(500, PartialFailureMessage);
    }
  }
}

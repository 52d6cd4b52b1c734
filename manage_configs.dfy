/** The administration handler of `panelConfigs`: GET lists, POST creates, PUT
    overwrites and DELETE removes a config, each keyed by its `type`. */
module ManageConfigs {
  import opened Wrappers
  import opened Documents
  import opened Database
  import opened Http
  import opened Auth

  /** The fields of the request body (for GET, `type` comes from the query string). */
  datatype ConfigBody = ConfigBody(
    configType: Option<string>,
    domain: Option<string>,
    ptla: Option<string>,
    ptlc: Option<string>,
    eggId: Option<string>,
    nestId: Option<string>,
    loc: Option<string>)

  predicate Complete(b: ConfigBody)
  {
    Present(b.configType) && Present(b.domain) && Present(b.ptla) && Present(b.ptlc)
    && Present(b.eggId) && Present(b.nestId) && Present(b.loc)
  }

  /** GET: with a truthy `type`, the first config of that type if any; otherwise all. */
  function Lookup(configs: seq<PanelConfig>, t: Option<string>): (r: seq<PanelConfig>)
    ensures !Present(t) ==> r == configs
    ensures Present(t) ==> |r| <= 1 && forall c :: c in r ==> c in configs && c.configType == t.value
    ensures Present(t) ==> (r == [] <==> forall c :: c in configs ==> c.configType != t.value)
  {
    if !Present(t) then configs
    else
      match FindFirst(configs, ConfigType, t.value)
      case None =>
        assert forall c :: c in configs ==> c.configType != t.value by {
          forall c | c in configs ensures c.configType != t.value {
            var j :| 0 <= j < |configs| && configs[j] == c;
          }
        }
        []
      case Some(i) => [configs[i]]
  }

  /** With one config per type, a lookup by type finds every config of that type. */
  lemma LookupUnique(configs: seq<PanelConfig>, t: string)
    requires t != "" && UniqueKeys(configs, ConfigType)
    ensures forall c :: c in configs && c.configType == t ==> Lookup(configs, Some(t)) == [c]
  {
    forall c | c in configs && c.configType == t ensures Lookup(configs, Some(t)) == [c] {
      var j :| 0 <= j < |configs| && configs[j] == c;
      FindFirstUnique(configs, ConfigType, j);
    }
  }

  /** The document POST inserts: the seven fields and `createdAt`, no `updatedAt`. */
  function NewConfig(b: ConfigBody, now: Time): (c: PanelConfig)
    requires Complete(b)
    ensures c.configType == b.configType.value && c.createdAt == Some(now) && c.updatedAt.None?
    ensures c.domain == b.domain && c.ptla == b.ptla && c.ptlc == b.ptlc
    ensures c.eggId == b.eggId && c.nestId == b.nestId && c.loc == b.loc
  {
    PanelConfig(b.configType.value, b.domain, b.ptla, b.ptlc, b.eggId, b.nestId, b.loc, Some(now), None)
  }

  /** The `$set` of PUT: every field of the body, absent ones as `null`. */
  function ChangeOf(b: ConfigBody, now: Time): ConfigSet
  {
    ConfigSet(b.domain, b.ptla, b.ptlc, b.eggId, b.nestId, b.loc, now)
  }

  /** PUT replaces the six other fields by the body's (an absent field becomes `null`)
      and stamps `updatedAt`; the type and `createdAt` stay. */
  lemma PutOverwrites(c: PanelConfig, b: ConfigBody, now: Time)
    ensures ApplyConfigSet(c, ChangeOf(b, now))
      == PanelConfig(c.configType, b.domain, b.ptla, b.ptlc, b.eggId, b.nestId, b.loc, c.createdAt, Some(now))
  {
  }

  /** `updatedAt` changes with every PUT, so a PUT on an existing type reports no
      change only when it runs at the instant of the previous update with the same body. */
  lemma PutModifies(c: PanelConfig, b: ConfigBody, now: Time)
    requires c.updatedAt != Some(now)
    ensures ApplyConfigSet(c, ChangeOf(b, now)) != c
  {
  }

  /** What POST did: 400 or 409 with the configs unchanged, or exactly one config
      appended (201). */
  twostate predicate Created(db: Store, body: ConfigBody, now: Time, resp: Response)
    reads db
  {
    if !Complete(body) then
      resp == Fail(400, "Missing required fields.") && db.configs == old(db.configs)
    else if FindFirst(old(db.configs), ConfigType, body.configType.value).Some? then
      resp == Fail(409, "Config type already exists.") && db.configs == old(db.configs)
    else
      && resp == Response(201, Message(true, "Config created successfully."))
      && db.configs == old(db.configs) + [NewConfig(body, now)]
  }

  /** What PUT did: 400 without a type, 404 when no config has it; otherwise that
      config got the update, and the answer is 200 exactly when the configs changed. */
  twostate predicate Updated(db: Store, body: ConfigBody, now: Time, resp: Response)
    reads db
  {
    if !Present(body.configType) then
      resp == Fail(400, "Config type is required.") && db.configs == old(db.configs)
    else match FindFirst(old(db.configs), ConfigType, body.configType.value)
      case None =>
        resp == Fail(404, "Config not found or no changes were made.") && db.configs == old(db.configs)
      case Some(i) =>
        && db.configs == old(db.configs)[i := ApplyConfigSet(old(db.configs)[i], ChangeOf(body, now))]
        && resp == if db.configs == old(db.configs)
                   then Fail(404, "Config not found or no changes were made.")
                   else Response(200, Message(true, "Config updated successfully."))
  }

  /** What DELETE did: 400 without a type; otherwise the config of the type is removed
      (404 when there was none). */
  twostate predicate Deleted(db: Store, body: ConfigBody, resp: Response)
    reads db
  {
    if !Present(body.configType) then
      resp == Fail(400, "Config type is required.") && db.configs == old(db.configs)
    else
      && db.configs == DeleteFirst(old(db.configs), ConfigType, body.configType.value)
      && resp == if FindFirst(old(db.configs), ConfigType, body.configType.value).None?
                 then Fail(404, "Config not found.")
                 else Response(200, Message(true, "Config deleted successfully."))
  }

  method Create(db: Store, body: ConfigBody, now: Time) returns (resp: Response)
    requires db.Valid()
    modifies db
    ensures db.Valid()
    ensures db.users == old(db.users) && db.panels == old(db.panels)
    ensures UniqueKeys(old(db.configs), ConfigType) ==> UniqueKeys(db.configs, ConfigType)
    ensures Created(db, body, now, resp)
  {
    if !Complete(body) {
      return Fail(400, "Missing required fields.");
    }
    if FindFirst(db.configs, ConfigType, body.configType.value).Some? {
      return Fail(409, "Config type already exists.");
    }
    ghost var before := db.configs;
    db.InsertConfig(NewConfig(body, now));
    if UniqueKeys(before, ConfigType) {
      UniqueAppend(before, ConfigType, NewConfig(body, now));
    }
    return Response(201, Message(true, "Config created successfully."));
  }

  method Update(db: Store, body: ConfigBody, now: Time) returns (resp: Response)
    requires db.Valid()
    modifies db
    ensures db.Valid()
    ensures db.users == old(db.users) && db.panels == old(db.panels)
    ensures UniqueKeys(old(db.configs), ConfigType) ==> UniqueKeys(db.configs, ConfigType)
    ensures Updated(db, body, now, resp)
  {
    if !Present(body.configType) {
      return Fail(400, "Config type is required.");
    }
    ghost var before := db.configs;
    var modifiedCount := db.UpdateConfigByType(body.configType.value, ChangeOf(body, now));
    if FindFirst(before, ConfigType, body.configType.value).Some? {
      var i := FindFirst(before, ConfigType, body.configType.value).value;
      if UniqueKeys(before, ConfigType) {
        UniqueReplace(before, ConfigType, i, ApplyConfigSet(before[i], ChangeOf(body, now)));
      }
      assert db.configs == before <==> ApplyConfigSet(before[i], ChangeOf(body, now)) == before[i] by {
        if db.configs == before {
          assert db.configs[i] == before[i];
        }
      }
    }
    if modifiedCount == 0 {
      return Fail(404, "Config not found or no changes were made.");
    }
    return Response(200, Message(true, "Config updated successfully."));
  }

  method Remove(db: Store, body: ConfigBody) returns (resp: Response)
    requires db.Valid()
    modifies db
    ensures db.Valid()
    ensures db.users == old(db.users) && db.panels == old(db.panels)
    ensures UniqueKeys(old(db.configs), ConfigType) ==> UniqueKeys(db.configs, ConfigType)
    ensures Deleted(db, body, resp)
  {
    if !Present(body.configType) {
      return Fail(400, "Config type is required.");
    }
    ghost var before := db.configs;
    var deletedCount := db.DeleteConfigByType(body.configType.value);
    if UniqueKeys(before, ConfigType) {
      UniqueDelete(before, ConfigType, body.configType.value, ConfigType);
    }
    if deletedCount == 0 {
      return Fail(404, "Config not found.");
    }
    return Response(200, Message(true, "Config deleted successfully."));
  }

  method Handle(db: Store, header: Option<string>, verify: string -> Option<Identity>, verb: string,
                query: Option<string>, body: ConfigBody, now: Time)
    returns (resp: Response)
    requires db.Valid()
    modifies db
    ensures db.Valid()
    ensures db.users == old(db.users) && db.panels == old(db.panels)
    // at most one config per type, whatever the request
    ensures UniqueKeys(old(db.configs), ConfigType) ==> UniqueKeys(db.configs, ConfigType)
    ensures var gate := AdminGate(Authenticate(header, verify));
      gate.Some? ==> resp == gate.value && db.configs == old(db.configs)
    ensures AdminGate(Authenticate(header, verify)).None? && verb == "GET" ==>
      resp == Response(200, ConfigList(Lookup(old(db.configs), query))) && db.configs == old(db.configs)
    ensures AdminGate(Authenticate(header, verify)).None? && verb == "POST" ==> Created(db, body, now, resp)
    ensures AdminGate(Authenticate(header, verify)).None? && verb == "PUT" ==> Updated(db, body, now, resp)
    ensures AdminGate(Authenticate(header, verify)).None? && verb == "DELETE" ==> Deleted(db, body, resp)
    ensures AdminGate(Authenticate(header, verify)).None? && verb !in {"GET", "POST", "PUT", "DELETE"} ==>
      resp == Fail(405, "Method Not Allowed.") && db.configs == old(db.configs)
  {
    var gate := AdminGate(Authenticate(header, verify));
    if gate.Some? {
      resp := gate.value;
    } else if verb == "GET" {
      resp := Response(200, ConfigList(Lookup(db.configs, query)));
    } else if verb == "POST" {
      resp := Create(db, body, now);
    } else if verb == "PUT" {
      resp := Update(db, body, now);
    } else if verb == "DELETE" {
      resp := Remove(db, body);
    } else {
      resp := Fail(405, "Method Not Allowed.");
    }
  }
}

/** The database the handlers share: the three collections, kept in natural
    (insertion) order, and the driver operations the handlers call on them
    (`insertOne`, `updateOne` with `$set`, `deleteOne`, each with the count it reports).
    `nextId` stands for the driver's `_id` generator. */
module Database {
  import opened Wrappers
  import opened Documents

  /** The `$set` document of a config update: every config field from the request
      body, absent ones as `null`, plus `updatedAt`. `type` is set to the value the
      update filters on, so it never changes. */
  datatype ConfigSet = ConfigSet(
    domain: Option<string>,
    ptla: Option<string>,
    ptlc: Option<string>,
    eggId: Option<string>,
    nestId: Option<string>,
    loc: Option<string>,
    updatedAt: Time)

  /** The `$set` document of a user update: only the fields present in it (Some) are set. */
  datatype UserSet = UserSet(
    username: Option<string>,
    role: Option<string>,
    accountType: Option<string>,
    password: Option<string>)

  function ApplyConfigSet(c: PanelConfig, change: ConfigSet): (r: PanelConfig)
    ensures r.configType == c.configType && r.createdAt == c.createdAt
    ensures r.updatedAt == Some(change.updatedAt)
  {
    c.(domain := change.domain, ptla := change.ptla, ptlc := change.ptlc, eggId := change.eggId,
       nestId := change.nestId, loc := change.loc, updatedAt := Some(change.updatedAt))
  }

  /** `$set` on a user sets the fields it holds and leaves every other field as it was. */
  function ApplyUserSet(u: User, change: UserSet): (r: User)
    ensures r.oid == u.oid && r.accountId == u.accountId
    ensures r.createdAt == u.createdAt && r.lastLogin == u.lastLogin
    ensures change.username.None? ==> r.username == u.username
    ensures change.role.None? ==> r.role == u.role
    ensures change.accountType.None? ==> r.accountType == u.accountType
    ensures change.password.None? ==> r.password == u.password
    ensures change.username.Some? ==> r.username == change.username.value
    ensures change.role.Some? ==> r.role == change.role.value
    ensures change.accountType.Some? ==> r.accountType == change.accountType.value
    ensures change.password.Some? ==> r.password == change.password.value
  {
    u.(username := change.username.GetOr(u.username),
       role := change.role.GetOr(u.role),
       accountType := change.accountType.GetOr(u.accountType),
       password := change.password.GetOr(u.password))
  }

  class Store {
    var users: seq<User>
    var configs: seq<PanelConfig>
    var panels: seq<UserPanel>
    var nextId: ObjectId

    /** Every `_id` was handed out by the generator, in insertion order. */
    ghost predicate Valid()
      reads this
    {
      IdsBelow(users, UserKey, nextId) && IdsBelow(panels, PanelKey, nextId)
    }

    constructor ()
      ensures Valid()
      ensures users == [] && configs == [] && panels == []
    {
      users, configs, panels, nextId := [], [], [], 0;
    }

    /** `new ObjectId()`: an `_id` no document holds yet. */
    method NewObjectId() returns (oid: ObjectId)
      requires Valid()
      modifies this
      ensures Valid()
      ensures oid == old(nextId) && nextId == oid + 1
      ensures users == old(users) && configs == old(configs) && panels == old(panels)
    {
      oid := nextId;
      nextId := nextId + 1;
      IdsBelowRaise(users, UserKey, oid, nextId);
      IdsBelowRaise(panels, PanelKey, oid, nextId);
    }

    /** `users.insertOne(u)`: `u` is appended under a fresh `_id`. */
    method InsertUser(u: User) returns (oid: ObjectId)
      requires Valid()
      modifies this
      ensures Valid()
      ensures oid == old(nextId) && nextId == oid + 1
      ensures users == old(users) + [u.(oid := oid)]
      ensures configs == old(configs) && panels == old(panels)
    {
      oid := nextId;
      IdsBelowAppend(users, UserKey, oid, u.(oid := oid));
      IdsBelowRaise(panels, PanelKey, oid, oid + 1);
      users := users + [u.(oid := oid)];
      nextId := nextId + 1;
    }

    /** `userPanels.insertOne(p)`: `p` is appended under a fresh `_id`. */
    method InsertPanel(p: UserPanel) returns (oid: ObjectId)
      requires Valid()
      modifies this
      ensures Valid()
      ensures oid == old(nextId) && nextId == oid + 1
      ensures panels == old(panels) + [p.(oid := oid)]
      ensures users == old(users) && configs == old(configs)
    {
      oid := nextId;
      IdsBelowAppend(panels, PanelKey, oid, p.(oid := oid));
      IdsBelowRaise(users, UserKey, oid, oid + 1);
      panels := panels + [p.(oid := oid)];
      nextId := nextId + 1;
    }

    /** `panelConfigs.insertOne(c)`. */
    method InsertConfig(c: PanelConfig)
      requires Valid()
      modifies this
      ensures Valid()
      ensures configs == old(configs) + [c]
      ensures users == old(users) && panels == old(panels) && nextId == old(nextId)
    {
      configs := configs + [c];
    }

    /** `panelConfigs.updateOne({ type: t }, { $set: change })`: the first config of that
        type is updated; the count says whether a document actually changed. */
    method UpdateConfigByType(t: string, change: ConfigSet) returns (modifiedCount: nat)
      requires Valid()
      modifies this
      ensures Valid()
      ensures users == old(users) && panels == old(panels) && nextId == old(nextId)
      ensures FindFirst(old(configs), ConfigType, t).None? ==> modifiedCount == 0 && configs == old(configs)
      ensures FindFirst(old(configs), ConfigType, t).Some? ==>
        var i := FindFirst(old(configs), ConfigType, t).value;
        var c := ApplyConfigSet(old(configs)[i], change);
        && configs == old(configs)[i := c]
        && modifiedCount == (if c == old(configs)[i] then 0 else 1)
    {
      match FindFirst(configs, ConfigType, t)
      case None =>
        modifiedCount := 0;
      case Some(i) =>
        var c := ApplyConfigSet(configs[i], change);
        modifiedCount := if c == configs[i] then 0 else 1;
        configs := configs[i := c];
    }

    /** `panelConfigs.deleteOne({ type: t })`. */
    method DeleteConfigByType(t: string) returns (deletedCount: nat)
      requires Valid()
      modifies this
      ensures Valid()
      ensures users == old(users) && panels == old(panels) && nextId == old(nextId)
      ensures configs == DeleteFirst(old(configs), ConfigType, t)
      ensures deletedCount == if FindFirst(old(configs), ConfigType, t).Some? then 1 else 0
    {
      deletedCount := if FindFirst(configs, ConfigType, t).Some? then 1 else 0;
      configs := DeleteFirst(configs, ConfigType, t);
    }

    /** `users.updateOne({ _id: oid }, { $set: change })`. */
    method UpdateUserById(oid: ObjectId, change: UserSet) returns (modifiedCount: nat)
      requires Valid()
      modifies this
      ensures Valid()
      ensures configs == old(configs) && panels == old(panels) && nextId == old(nextId)
      ensures FindFirst(old(users), UserKey, oid).None? ==> modifiedCount == 0 && users == old(users)
      ensures FindFirst(old(users), UserKey, oid).Some? ==>
        var i := FindFirst(old(users), UserKey, oid).value;
        var u := ApplyUserSet(old(users)[i], change);
        && users == old(users)[i := u]
        && modifiedCount == (if u == old(users)[i] then 0 else 1)
    {
      match FindFirst(users, UserKey, oid)
      case None =>
        modifiedCount := 0;
      case Some(i) =>
        var u := ApplyUserSet(users[i], change);
        modifiedCount := if u == users[i] then 0 else 1;
        IdsBelowReplace(users, UserKey, nextId, i, u);
        users := users[i := u];
    }

    /** `users.updateOne({ _id: oid }, { $set: { lastLogin: now } })`. */
    method SetLastLogin(oid: ObjectId, now: Time)
      requires Valid()
      modifies this
      ensures Valid()
      ensures configs == old(configs) && panels == old(panels) && nextId == old(nextId)
      ensures FindFirst(old(users), UserKey, oid).None? ==> users == old(users)
      ensures FindFirst(old(users), UserKey, oid).Some? ==>
        var i := FindFirst(old(users), UserKey, oid).value;
        users == old(users)[i := old(users)[i].(lastLogin := Some(now))]
    {
      match FindFirst(users, UserKey, oid)
      case None =>
      case Some(i) =>
        IdsBelowReplace(users, UserKey, nextId, i, users[i].(lastLogin := Some(now)));
        users := users[i := users[i].(lastLogin := Some(now))];
    }

    /** `users.deleteOne({ _id: oid })`. */
    method DeleteUserById(oid: ObjectId) returns (deletedCount: nat)
      requires Valid()
      modifies this
      ensures Valid()
      ensures configs == old(configs) && panels == old(panels) && nextId == old(nextId)
      ensures users == DeleteFirst(old(users), UserKey, oid)
      ensures deletedCount == if FindFirst(old(users), UserKey, oid).Some? then 1 else 0
    {
      deletedCount := if FindFirst(users, UserKey, oid).Some? then 1 else 0;
      IdsBelowDelete(users, UserKey, nextId, UserKey, oid);
      users := DeleteFirst(users, UserKey, oid);
    }

    /** `userPanels.deleteOne({ _id: oid })`. */
    method DeletePanelById(oid: ObjectId) returns (deletedCount: nat)
      requires Valid()
      modifies this
      ensures Valid()
      ensures users == old(users) && configs == old(configs) && nextId == old(nextId)
      ensures panels == DeleteFirst(old(panels), PanelKey, oid)
      ensures deletedCount == if FindFirst(old(panels), PanelKey, oid).Some? then 1 else 0
    {
      deletedCount := if FindFirst(panels, PanelKey, oid).Some? then 1 else 0;
      IdsBelowDelete(panels, PanelKey, nextId, PanelKey, oid);
      panels := DeleteFirst(panels, PanelKey, oid);
    }
  }
}

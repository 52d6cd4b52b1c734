/** The documents of the three collections (`users`, `panelConfigs`, `userPanels`),
    the identity carried by a verified token, and the lookups the handlers perform
    on a collection: `findOne` and `deleteOne` on one field, in natural (insertion) order. */
module Documents {
  import opened Wrappers

  /** A MongoDB `_id`: twelve bytes, written as 24 hexadecimal digits. */
  type ObjectId = nat

  /** A `new Date()` value; the clock itself is an input of every handler that reads it. */
  type Time = nat

  /** The claims of a verified token: the payload that login signs.
      `id` is `undefined` for a user stored without an `accountId`. */
  datatype Identity = Identity(id: Option<string>, username: string, role: string, accountType: string)

  /** A `users` document. `password` holds the bcrypt hash; `accountId` is set by
      registration and absent for users created by an administrator. */
  datatype User = User(
    oid: ObjectId,
    username: string,
    password: string,
    role: string,
    accountType: string,
    accountId: Option<string>,
    createdAt: Time,
    lastLogin: Option<Time>)

  /** A `users` document read with the projection `{ password: 0 }`. */
  datatype UserView = UserView(
    oid: ObjectId,
    username: string,
    role: string,
    accountType: string,
    accountId: Option<string>,
    createdAt: Time,
    lastLogin: Option<Time>)

  /** A `panelConfigs` document, keyed by `configType` (the field `type`). A field that
      an update set from an absent request field holds `null`, here `None`. */
  datatype PanelConfig = PanelConfig(
    configType: string,
    domain: Option<string>,
    ptla: Option<string>,
    ptlc: Option<string>,
    eggId: Option<string>,
    nestId: Option<string>,
    loc: Option<string>,
    createdAt: Option<Time>,
    updatedAt: Option<Time>)

  /** A `userPanels` document. Panels created by this backend carry the owner in
      `userId`; `accountId` is the field the listing filters on, and is absent from them. */
  datatype UserPanel = UserPanel(
    oid: ObjectId,
    userId: ObjectId,
    accountId: Option<string>,
    idServer: string,
    idUser: string,
    username: string,
    domain: string,
    panelType: string,
    createdAt: Time)

  function View(u: User): (v: UserView)
    ensures v.oid == u.oid && v.username == u.username && v.lastLogin == u.lastLogin
    ensures v.role == u.role && v.accountType == u.accountType
    ensures v.accountId == u.accountId && v.createdAt == u.createdAt
  {
    UserView(u.oid, u.username, u.role, u.accountType, u.accountId, u.createdAt, u.lastLogin)
  }

  // The fields the handlers look documents up by.
  function UserKey(u: User): ObjectId { u.oid }
  function UserName(u: User): string { u.username }
  function PanelKey(p: UserPanel): ObjectId { p.oid }
  function PanelServer(p: UserPanel): string { p.idServer }
  function ConfigType(c: PanelConfig): string { c.configType }

  /** `findOne({ field: k })`: the position of the first document, in natural order,
      whose field equals `k`. */
  function FindFirst<T, K(==)>(s: seq<T>, key: T -> K, k: K): (r: Option<nat>)
    ensures r.Some? ==> r.value < |s| && key(s[r.value]) == k
    ensures r.Some? ==> forall j :: 0 <= j < r.value ==> key(s[j]) != k
    ensures r.None? <==> forall j :: 0 <= j < |s| ==> key(s[j]) != k
  {
    if s == [] then None
    else if key(s[0]) == k then Some(0)
    else
      match FindFirst(s[1..], key, k)
      case None => None
      case Some(i) => Some(i + 1)
  }

  /** `deleteOne({ field: k })`: the collection without the document `findOne` would
      return. */
  function DeleteFirst<T, K(==)>(s: seq<T>, key: T -> K, k: K): (r: seq<T>)
    ensures FindFirst(s, key, k).None? ==> r == s
    ensures FindFirst(s, key, k).Some? ==>
      |r| == |s| - 1 && multiset(r) + multiset{s[FindFirst(s, key, k).value]} == multiset(s)
  {
    match FindFirst(s, key, k)
    case None => s
    case Some(i) =>
      assert s == s[..i] + [s[i]] + s[i + 1..];
      s[..i] + s[i + 1..]
  }

  /** No two documents share a value of the field. */
  predicate UniqueKeys<T, K(==)>(s: seq<T>, key: T -> K)
  {
    forall i, j :: 0 <= i < j < |s| ==> key(s[i]) != key(s[j])
  }

  /** `_id`s in insertion order: strictly increasing and all below the next one to be
      generated. */
  predicate IdsBelow<T>(s: seq<T>, key: T -> nat, bound: nat)
  {
    && (forall i, j :: 0 <= i < j < |s| ==> key(s[i]) < key(s[j]))
    && (forall i :: 0 <= i < |s| ==> key(s[i]) < bound)
  }

  lemma IdsBelowUnique<T>(s: seq<T>, key: T -> nat, bound: nat)
    requires IdsBelow(s, key, bound)
    ensures UniqueKeys(s, key)
  {
  }

  lemma IdsBelowAppend<T>(s: seq<T>, key: T -> nat, bound: nat, x: T)
    requires IdsBelow(s, key, bound) && key(x) == bound
    ensures IdsBelow(s + [x], key, bound + 1)
  {
  }

  lemma IdsBelowRaise<T>(s: seq<T>, key: T -> nat, bound: nat, bound': nat)
    requires IdsBelow(s, key, bound) && bound <= bound'
    ensures IdsBelow(s, key, bound')
  {
  }

  lemma IdsBelowReplace<T>(s: seq<T>, key: T -> nat, bound: nat, i: nat, x: T)
    requires IdsBelow(s, key, bound) && i < |s| && key(x) == key(s[i])
    ensures IdsBelow(s[i := x], key, bound)
  {
  }

  /** Removing a document keeps the order of the others, so their `_id`s stay increasing. */
  lemma {:induction false} IdsBelowDelete<T, K>(s: seq<T>, key: T -> nat, bound: nat, field: T -> K, k: K)
    requires IdsBelow(s, key, bound)
    ensures IdsBelow(DeleteFirst(s, field, k), key, bound)
  {
    match FindFirst(s, field, k)
    case None =>
    case Some(i) =>
      var r := s[..i] + s[i + 1..];
      assert DeleteFirst(s, field, k) == r;
      forall a | 0 <= a < |r| ensures r[a] == s[if a < i then a else a + 1] {
      }
  }

  /** With a unique field, `findOne` on the field of the document at `i` finds that
      document and no other. */
  lemma FindFirstUnique<T, K>(s: seq<T>, key: T -> K, i: nat)
    requires UniqueKeys(s, key) && i < |s|
    ensures FindFirst(s, key, key(s[i])) == Some(i)
  {
  }

  /** With a unique field, `deleteOne` removes exactly the document holding the value. */
  lemma DeleteFirstUnique<T, K>(s: seq<T>, key: T -> K, i: nat)
    requires UniqueKeys(s, key) && i < |s|
    ensures DeleteFirst(s, key, key(s[i])) == s[..i] + s[i + 1..]
    ensures forall x :: x in DeleteFirst(s, key, key(s[i])) ==> key(x) != key(s[i])
  {
    FindFirstUnique(s, key, i);
    var r := s[..i] + s[i + 1..];
    forall x | x in r ensures key(x) != key(s[i]) {
      var a :| 0 <= a < |r| && r[a] == x;
      if a < i {
        assert r[a] == s[a];
      } else {
        assert r[a] == s[a + 1];
      }
    }
  }

  /** Adding a document whose field value is new keeps the field unique. */
  lemma UniqueAppend<T, K>(s: seq<T>, key: T -> K, x: T)
    requires UniqueKeys(s, key) && FindFirst(s, key, key(x)).None?
    ensures UniqueKeys(s + [x], key)
  {
  }

  /** Replacing a document by one with the same field value keeps the field unique. */
  lemma UniqueReplace<T, K>(s: seq<T>, key: T -> K, i: nat, x: T)
    requires UniqueKeys(s, key) && i < |s| && key(x) == key(s[i])
    ensures UniqueKeys(s[i := x], key)
  {
  }

  /** Removing a document by one field keeps any other field unique. */
  lemma UniqueDelete<T, K, L>(s: seq<T>, field: T -> K, k: K, key: T -> L)
    requires UniqueKeys(s, key)
    ensures UniqueKeys(DeleteFirst(s, field, k), key)
  {
    match FindFirst(s, field, k)
    case None =>
    case Some(i) =>
      var r := s[..i] + s[i + 1..];
      assert DeleteFirst(s, field, k) == r;
      forall a | 0 <= a < |r| ensures r[a] == s[if a < i then a else a + 1] {
      }
  }

  predicate IsHexDigit(c: char)
  {
    '0' <= c <= '9' || 'a' <= c <= 'f' || 'A' <= c <= 'F'
  }

  function HexDigitValue(c: char): (d: nat)
    requires IsHexDigit(c)
    ensures d < 16
  {
    if '0' <= c <= '9' then c as nat - '0' as nat
    else if 'a' <= c <= 'f' then c as nat - 'a' as nat + 10
    else c as nat - 'A' as nat + 10
  }

  function Pow16(n: nat): (p: nat)
    ensures p >= 1
  {
    if n == 0 then 1 else 16 * Pow16(n - 1)
  }

  /** The number a string of hexadecimal digits (either case) denotes; None when a
      character is not a hexadecimal digit. */
  function HexValue(s: string): (r: Option<nat>)
    ensures r.Some? <==> forall i :: 0 <= i < |s| ==> IsHexDigit(s[i])
    ensures r.Some? ==> r.value < Pow16(|s|)
  {
    if s == [] then Some(0)
    else
      var last := s[|s| - 1];
      match HexValue(s[..|s| - 1])
      case None => None
      case Some(v) => if IsHexDigit(last) then Some(16 * v + HexDigitValue(last)) else None
  }

  /** `new ObjectId(s)` for a string `s`: it accepts exactly 24 hexadecimal digits and
      throws on anything else, a 36-character UUID included. */
  function ParseObjectId(s: string): (r: Option<ObjectId>)
    ensures r.Some? <==> |s| == 24 && forall i :: 0 <= i < |s| ==> IsHexDigit(s[i])
    ensures r.Some? ==> r.value < Pow16(24)
  {
    if |s| == 24 then HexValue(s) else None
  }
}

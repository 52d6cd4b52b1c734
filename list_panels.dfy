/** The list-panels handler: an administrator sees every `userPanels` record, any
    other caller the records whose `accountId` equals the `id` of their token. It
    reads the collection and changes nothing, so it is a function of the panels. */
module ListPanels {
  import opened Wrappers
  import opened Documents
  import opened Http
  import opened Auth

  // This file answers a failed token check in Indonesian.
  const NoTokenMessage := "Akses Ditolak: Token tidak diberikan."
  const InvalidTokenMessage := "Akses Ditolak: Token tidak valid."
  const MethodMessage := "Metode Tidak Diizinkan."

  /** `s` is `t` with some elements left out, the rest kept in their order. */
  predicate Subsequence<T(==)>(s: seq<T>, t: seq<T>)
    decreases |t|
  {
    if s == [] then true
    else if t == [] then false
    else if s[0] == t[0] then Subsequence(s[1..], t[1..])
    else Subsequence(s, t[1..])
  }

  lemma {:induction false} SubsequenceRefl<T>(s: seq<T>)
    ensures Subsequence(s, s)
  {
    if s != [] {
      SubsequenceRefl(s[1..]);
    }
  }

  /** `find({ accountId: id })`: the records whose `accountId` equals `id`, in natural
      order. An undefined `id` (None) is sent as `null`, which matches the records
      without an `accountId`. */
  function OwnedBy(panels: seq<UserPanel>, id: Option<string>): (r: seq<UserPanel>)
    ensures |r| <= |panels|
    ensures forall p :: p in r <==> p in panels && p.accountId == id
  {
    if panels == [] then []
    else
      var rest := OwnedBy(panels[1..], id);
      assert forall p :: p in panels <==> p == panels[0] || p in panels[1..];
      if panels[0].accountId == id then [panels[0]] + rest else rest
  }

  /** The listing keeps the order of the collection. */
  lemma {:induction false} OwnedBySubsequence(panels: seq<UserPanel>, id: Option<string>)
    ensures Subsequence(OwnedBy(panels, id), panels)
  {
    if panels != [] {
      OwnedBySubsequence(panels[1..], id);
      var r := OwnedBy(panels, id);
      if panels[0].accountId == id {
        assert r[0] == panels[0] && r[1..] == OwnedBy(panels[1..], id);
      } else if r != [] {
        assert r[0] in r;
        assert r[0] != panels[0];
      }
    }
  }

  /** The filter works record by record, so it distributes over concatenation. */
  lemma {:induction false} OwnedByAppend(a: seq<UserPanel>, b: seq<UserPanel>, id: Option<string>)
    ensures OwnedBy(a + b, id) == OwnedBy(a, id) + OwnedBy(b, id)
  {
    if a == [] {
      assert a + b == b;
    } else {
      assert (a + b)[0] == a[0];
      assert (a + b)[1..] == a[1..] + b;
      OwnedByAppend(a[1..], b, id);
    }
  }

  /** A record inserted by create-panel carries its owner under `userId` and has no
      `accountId`: it never shows up in the listing of a caller whose token has an
      `id`, and shows up in that of every caller whose token has none. */
  lemma NewPanelListing(panels: seq<UserPanel>, rec: UserPanel, id: Option<string>)
    requires rec.accountId.None?
    ensures id.Some? ==> OwnedBy(panels + [rec], id) == OwnedBy(panels, id)
    ensures id.None? ==> OwnedBy(panels + [rec], id) == OwnedBy(panels, id) + [rec]
  {
    OwnedByAppend(panels, [rec], id);
    assert [rec][1..] == [];
  }

  /** The response: a failed token check, 405 for anything but GET, and otherwise 200
      with the records the caller may see. */
  function Handle(header: Option<string>, verify: string -> Option<Identity>, verb: string,
                  panels: seq<UserPanel>): (resp: Response)
    ensures Authenticate(header, verify).NoToken? ==> resp == Fail(401, NoTokenMessage)
    ensures Authenticate(header, verify).InvalidToken? ==> resp == Fail(403, InvalidTokenMessage)
    ensures Authenticate(header, verify).Authenticated? && verb != "GET" ==> resp == Fail(405, MethodMessage)
    ensures resp.code == 200 <==> Authenticate(header, verify).Authenticated? && verb == "GET"
    ensures resp.code == 200 ==> resp.body.PanelList? && Subsequence(resp.body.panels, panels)
    ensures resp.code == 200 && Authenticate(header, verify).user.role == "admin" ==>
      resp.body.panels == panels
    ensures resp.code == 200 && Authenticate(header, verify).user.role != "admin" ==>
      resp.body.panels == OwnedBy(panels, Authenticate(header, verify).user.id)
  {
    match Authenticate(header, verify)
    case NoToken => Fail(401, NoTokenMessage)
    case InvalidToken => Fail(403, InvalidTokenMessage)
    case Authenticated(user) =>
      if verb != "GET" then Fail(405, MethodMessage)
      else if user.role == "admin" then
        SubsequenceRefl(panels);
        Response(200, PanelList(panels))
      else
        OwnedBySubsequence(panels, user.id);
        Response(200, PanelList(OwnedBy(panels, user.id)))
  }
}

/** `authenticateToken`, which every handler except registration and login runs
    first: the token is the second space-separated field of the `Authorization`
    header, and its verification (a signed-token check) is an input of the model. */
module Auth {
  import opened Wrappers
  import opened Documents
  import opened Http

  /** `s.split(' ')`: the pieces between single spaces, empty pieces included. */
  function Split(s: string): (fields: seq<string>)
    ensures |fields| >= 1
  {
    if s == [] then [""]
    else
      var rest := Split(s[1..]);
      if s[0] == ' ' then
        assert ([""] + rest)[1..] == rest;
        [""] + rest
      else
        var fields := [[s[0]] + rest[0]] + rest[1..];
        assert fields[1..] == rest[1..];
        fields
  }

  /** `fields.join(' ')`. */
  function Join(fields: seq<string>): string
    requires |fields| >= 1
  {
    if |fields| == 1 then fields[0] else fields[0] + " " + Join(fields[1..])
  }

  /** No field holds a space. */
  lemma {:induction false} SplitNoSpace(s: string)
    ensures forall i :: 0 <= i < |Split(s)| ==> ' ' !in Split(s)[i]
  {
    if s != [] {
      var rest := Split(s[1..]);
      SplitNoSpace(s[1..]);
      if s[0] == ' ' {
        assert Split(s) == [""] + rest;
        assert forall i :: 1 <= i < |Split(s)| ==> Split(s)[i] == rest[i - 1];
      } else {
        var fields := [[s[0]] + rest[0]] + rest[1..];
        assert Split(s) == fields;
        assert forall i :: 1 <= i < |fields| ==> fields[i] == rest[i];
        assert ' ' !in [s[0]] + rest[0];
      }
    }
  }

  /** Joining the fields with spaces gives the string back: nothing is lost. */
  lemma {:induction false} JoinSplit(s: string)
    ensures Join(Split(s)) == s
  {
    if s != [] {
      var rest := Split(s[1..]);
      JoinSplit(s[1..]);
      if s[0] == ' ' {
        assert Split(s) == [""] + rest;
        assert ([""] + rest)[1..] == rest;
      } else {
        var fields := [[s[0]] + rest[0]] + rest[1..];
        assert Split(s) == fields;
        assert fields[1..] == rest[1..];
        if |rest| > 1 {
          assert Join(rest) == rest[0] + " " + Join(rest[1..]);
          assert Join(fields) == [s[0]] + rest[0] + " " + Join(rest[1..]);
        }
        assert s == [s[0]] + s[1..];
      }
    }
  }

  /** Splitting a string that has no space in front of a remainder: the string is
      glued to the first piece of the remainder. */
  lemma {:induction false} SplitPrefix(a: string, t: string)
    requires ' ' !in a
    ensures Split(a + t) == [a + Split(t)[0]] + Split(t)[1..]
  {
    if a != [] {
      assert (a + t)[1..] == a[1..] + t;
      assert a[0] in a;
      SplitPrefix(a[1..], t);
      assert [a[0]] + (a[1..] + Split(t)[0]) == a + Split(t)[0];
    } else {
      assert a + t == t && a + Split(t)[0] == Split(t)[0];
      assert Split(t) == [Split(t)[0]] + Split(t)[1..];
    }
  }

  /** A leading space opens an empty first field. */
  lemma SplitSpace(t: string)
    ensures Split(" " + t) == [""] + Split(t)
  {
    assert (" " + t)[1..] == t;
  }

  /** A string without a space is a single field. */
  lemma {:induction false} SplitAlone(a: string)
    requires ' ' !in a
    ensures Split(a) == [a]
  {
    if a != [] {
      assert a[0] in a;
      assert forall c :: c in a[1..] ==> c in a;
      SplitAlone(a[1..]);
      assert a == [a[0]] + a[1..];
    }
  }

  /** Split undoes Join on pieces without spaces: the two are inverse. */
  lemma {:induction false} SplitJoin(fields: seq<string>)
    requires |fields| >= 1
    requires forall i :: 0 <= i < |fields| ==> ' ' !in fields[i]
    ensures Split(Join(fields)) == fields
  {
    if |fields| == 1 {
      SplitAlone(fields[0]);
    } else {
      var rest := fields[1..];
      var tail := Join(rest);
      assert forall i :: 0 <= i < |rest| ==> rest[i] == fields[i + 1];
      SplitJoin(rest);
      SplitSpace(tail);
      SplitPrefix(fields[0], " " + tail);
      assert Join(fields) == fields[0] + (" " + tail);
      assert fields[0] + "" == fields[0];
      assert fields == [fields[0]] + rest;
    }
  }

  /** `req.headers['authorization']?.split(' ')[1]`, kept only when it is truthy. */
  function BearerToken(header: Option<string>): (token: Option<string>)
    ensures token.Some? ==> token.value != "" && ' ' !in token.value
    ensures header.None? ==> token.None?
  {
    if header.None? then None
    else
      var fields := Split(header.value);
      SplitNoSpace(header.value);
      if |fields| >= 2 && fields[1] != "" then Some(fields[1]) else None
  }

  /** A header `scheme token...` yields the token; an empty second field or a header
      without a space yields none. */
  lemma SplitTail(tail: string)
    requires tail == "" || tail[0] == ' '
    ensures Split(tail)[0] == ""
  {
    if tail != "" {
      assert tail == " " + tail[1..];
      SplitSpace(tail[1..]);
    }
  }

  lemma SplitFirstField(token: string, tail: string)
    requires ' ' !in token
    requires tail == "" || tail[0] == ' '
    ensures Split(token + tail) == [token] + Split(tail)[1..]
  {
    SplitTail(tail);
    SplitPrefix(token, tail);
    assert token + "" == token;
  }

  /** A space-free field followed by a space: that field, then the fields of the rest. */
  lemma SplitAfterField(field: string, u: string)
    requires ' ' !in field
    ensures Split(field + (" " + u)) == [field] + Split(u)
  {
    SplitPrefix(field, " " + u);
    SplitSpace(u);
    assert ([""] + Split(u))[1..] == Split(u);
    assert field + "" == field;
  }

  /** The fields of `scheme token tail`, where `tail` is empty or starts with a space. */
  lemma SplitHeader(scheme: string, token: string, tail: string)
    requires ' ' !in scheme && ' ' !in token
    requires tail == "" || tail[0] == ' '
    ensures Split(scheme + " " + token + tail) == [scheme, token] + Split(tail)[1..]
  {
    var u := token + tail;
    var rest := Split(tail)[1..];
    assert scheme + " " + token + tail == scheme + (" " + u) by {
      ConcatAssoc(scheme, " ", token, tail);
    }
    assert Split(scheme + (" " + u)) == [scheme] + Split(u) by {
      SplitAfterField(scheme, u);
    }
    assert Split(u) == [token] + rest by {
      SplitFirstField(token, tail);
    }
    assert [scheme] + ([token] + rest) == [scheme, token] + rest;
  }

  lemma ConcatAssoc(a: string, b: string, c: string, d: string)
    ensures a + b + c + d == a + (b + (c + d))
  {
  }

  lemma BearerTokenOfHeader(scheme: string, token: string, tail: string)
    requires ' ' !in scheme && ' ' !in token
    requires tail == "" || tail[0] == ' '
    ensures BearerToken(Some(scheme + " " + token + tail)) == if token == "" then None else Some(token)
  {
    SplitHeader(scheme, token, tail);
  }

  lemma NoSpaceNoToken(header: string)
    requires ' ' !in header
    ensures BearerToken(Some(header)) == None
  {
    SplitJoin([header]);
  }

  datatype AuthOutcome = Authenticated(user: Identity) | NoToken | InvalidToken

  /** `authenticateToken`: no token is 401, a token `verify` rejects is 403, and
      `verify` is consulted only on an extracted token. */
  function Authenticate(header: Option<string>, verify: string -> Option<Identity>): (r: AuthOutcome)
    ensures r.NoToken? <==> BearerToken(header).None?
    ensures r.InvalidToken? <==> BearerToken(header).Some? && verify(BearerToken(header).value).None?
    ensures r.Authenticated? ==> Some(r.user) == verify(BearerToken(header).value)
  {
    match BearerToken(header)
    case None => NoToken
    case Some(token) =>
      match verify(token)
      case None => InvalidToken
      case Some(user) => Authenticated(user)
  }

  const NoTokenMessage := "Access Denied: No token provided."
  const InvalidTokenMessage := "Access Denied: Invalid token."

  /** The response of a failed `authenticateToken` (the English messages). */
  function Rejection(auth: AuthOutcome): (r: Response)
    requires !auth.Authenticated?
    ensures r.code == (if auth.NoToken? then 401 else 403)
  {
    if auth.NoToken? then Fail(401, NoTokenMessage) else Fail(403, InvalidTokenMessage)
  }

  const AdminOnlyMessage := "Forbidden. Only administrators can perform this action."

  /** The gate of the two administration handlers, before any store access: a
      verified token whose role is `admin`, whatever the method. */
  function AdminGate(auth: AuthOutcome): (r: Option<Response>)
    ensures r.None? <==> auth.Authenticated? && auth.user.role == "admin"
    ensures auth.Authenticated? && r.Some? ==> r.value == Fail(403, AdminOnlyMessage)
    ensures !auth.Authenticated? ==> r == Some(Rejection(auth))
  {
    if !auth.Authenticated? then Some(Rejection(auth))
    else if auth.user.role != "admin" then Some(Fail(403, AdminOnlyMessage))
    else None
  }
}

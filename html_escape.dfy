/** `escapeHTML`, which create-panel applies to the username, password and domain
    of a new panel before putting them into the notification message. */
module HtmlEscape {

  /** The five characters the escaper replaces. */
  predicate IsSpecial(c: char)
  {
    c == '&' || c == '<' || c == '>' || c == '"' || c == '\''
  }

  /** The characters that cannot appear in escaped text: all specials but `&`,
      which only appears as the first character of an entity. */
  predicate IsMarkup(c: char)
  {
    c == '<' || c == '>' || c == '"' || c == '\''
  }

  predicate Plain(s: string)
  {
    forall i :: 0 <= i < |s| ==> !IsSpecial(s[i])
  }

  /** The replacement table; any other character stands for itself. */
  function EscapeChar(c: char): (r: string)
    ensures !IsSpecial(c) <==> r == [c]
    ensures forall i :: 0 <= i < |r| ==> !IsMarkup(r[i])
  {
    match c
    case '&' => "&amp;"
    case '<' => "&lt;"
    case '>' => "&gt;"
    case '"' => "&quot;"
    case '\'' => "&#039;"
    case _ => [c]
  }

  /** `str.replace(/[&<>"']/g, ...)`: each character replaced by its entry in the table. */
  function EscapeHTML(s: string): (r: string)
    ensures |r| >= |s|
    ensures |r| == |s| <==> Plain(s)
  {
    if s == [] then []
    else
      assert Plain(s) <==> !IsSpecial(s[0]) && Plain(s[1..]) by {
        if !IsSpecial(s[0]) && Plain(s[1..]) {
          forall i | 0 <= i < |s| ensures !IsSpecial(s[i]) {
            if i > 0 { assert s[i] == s[1..][i - 1]; }
          }
        }
      }
      EscapeChar(s[0]) + EscapeHTML(s[1..])
  }

  /** Escaped text contains none of `<`, `>`, `"`, `'`. */
  lemma {:induction false} EscapedHasNoMarkup(s: string)
    ensures forall i :: 0 <= i < |EscapeHTML(s)| ==> !IsMarkup(EscapeHTML(s)[i])
  {
    if s != [] {
      EscapedHasNoMarkup(s[1..]);
      var head, rest := EscapeChar(s[0]), EscapeHTML(s[1..]);
      forall i | 0 <= i < |head + rest| ensures !IsMarkup((head + rest)[i]) {
        if i >= |head| { assert (head + rest)[i] == rest[i - |head|]; }
      }
    }
  }

  /** Text with none of the five specials is left as it is. */
  lemma {:induction false} EscapePlain(s: string)
    requires Plain(s)
    ensures EscapeHTML(s) == s
  {
    if s != [] {
      assert s[0] in s && !IsSpecial(s[0]);
      assert Plain(s[1..]) by {
        forall i | 0 <= i < |s[1..]| ensures !IsSpecial(s[1..][i]) {
          assert s[1..][i] == s[i + 1];
        }
      }
      EscapePlain(s[1..]);
      assert s == [s[0]] + s[1..];
    }
  }

  /** Escaping works character by character, so it distributes over concatenation. */
  lemma {:induction false} EscapeConcat(a: string, b: string)
    ensures EscapeHTML(a + b) == EscapeHTML(a) + EscapeHTML(b)
  {
    if a == [] {
      assert a + b == b;
    } else {
      assert (a + b)[0] == a[0];
      assert (a + b)[1..] == a[1..] + b;
      EscapeConcat(a[1..], b);
    }
  }

  /** Decodes the five entities the escaper produces; every other character stands
      for itself. It is the inverse used to state that escaping loses nothing. */
  function Unescape(t: string): string
    decreases |t|
  {
    if t == [] then []
    else if t[0] != '&' then [t[0]] + Unescape(t[1..])
    else if |t| >= 5 && t[..5] == "&amp;" then "&" + Unescape(t[5..])
    else if |t| >= 4 && t[..4] == "&lt;" then "<" + Unescape(t[4..])
    else if |t| >= 4 && t[..4] == "&gt;" then ">" + Unescape(t[4..])
    else if |t| >= 6 && t[..6] == "&quot;" then "\"" + Unescape(t[6..])
    else if |t| >= 6 && t[..6] == "&#039;" then "'" + Unescape(t[6..])
    else [t[0]] + Unescape(t[1..])
  }

  lemma UnescapeAmp(u: string)
    ensures Unescape("&amp;" + u) == "&" + Unescape(u)
  {
    var t := "&amp;" + u;
    assert t[..5] == "&amp;" && t[5..] == u;
  }

  lemma UnescapeLt(u: string)
    ensures Unescape("&lt;" + u) == "<" + Unescape(u)
  {
    var t := "&lt;" + u;
    assert t[1] == 'l';
    assert t[..4] == "&lt;" && t[4..] == u;
  }

  lemma UnescapeGt(u: string)
    ensures Unescape("&gt;" + u) == ">" + Unescape(u)
  {
    var t := "&gt;" + u;
    assert t[1] == 'g';
    assert t[..4] == "&gt;" && t[4..] == u;
  }

  lemma UnescapeQuot(u: string)
    ensures Unescape("&quot;" + u) == "\"" + Unescape(u)
  {
    var t := "&quot;" + u;
    assert t[1] == 'q';
    assert t[..6] == "&quot;" && t[6..] == u;
  }

  lemma UnescapeApos(u: string)
    ensures Unescape("&#039;" + u) == "'" + Unescape(u)
  {
    var t := "&#039;" + u;
    assert t[1] == '#';
    assert t[..6] == "&#039;" && t[6..] == u;
  }

  lemma UnescapeOther(c: char, u: string)
    requires c != '&'
    ensures Unescape([c] + u) == [c] + Unescape(u)
  {
    var t := [c] + u;
    assert t[0] == c;
    assert t[1..] == u;
  }

  lemma UnescapeStep(c: char, u: string)
    ensures Unescape(EscapeChar(c) + u) == [c] + Unescape(u)
  {
    match c
    case '&' => UnescapeAmp(u);
    case '<' => UnescapeLt(u);
    case '>' => UnescapeGt(u);
    case '"' => UnescapeQuot(u);
    case '\'' => UnescapeApos(u);
    case _ => UnescapeOther(c, u);
  }

  /** Escaping is injective: the original text is recovered from the escaped one. */
  lemma {:induction false} UnescapeEscape(s: string)
    ensures Unescape(EscapeHTML(s)) == s
  {
    if s != [] {
      UnescapeStep(s[0], EscapeHTML(s[1..]));
      UnescapeEscape(s[1..]);
      assert s == [s[0]] + s[1..];
    }
  }
}

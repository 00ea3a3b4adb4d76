/** `esc` (crates/outlay-shim/src/nip11.rs): four chained replacements. */
module HtmlEscape {

  /** `str::replace` of one character. */
  function Replace(s: string, c: char, text: string): string {
    if s == "" then "" else (if s[0] == c then text else [s[0]]) + Replace(s[1..], c, text)
  }

  function Esc(s: string): string {
    Replace(Replace(Replace(Replace(s, '&', "&amp;"), '<', "&lt;"), '>', "&gt;"), '"', "&quot;")
  }

  // ---------- one simultaneous substitution ----------

  function Entity(c: char): string {
    match c
    case '&' => "&amp;"
    case '<' => "&lt;"
    case '>' => "&gt;"
    case '"' => "&quot;"
    case _ => [c]
  }

  function Substitute(s: string): string {
    if s == "" then "" else Entity(s[0]) + Substitute(s[1..])
  }

  lemma {:induction false} ReplaceConcat(a: string, b: string, c: char, text: string)
    ensures Replace(a + b, c, text) == Replace(a, c, text) + Replace(b, c, text)
  {
    if a == "" {
      assert a + b == b;
    } else {
      assert (a + b)[1..] == a[1..] + b;
      ReplaceConcat(a[1..], b, c, text);
    }
  }

  lemma {:induction false} ReplaceAbsent(s: string, c: char, text: string)
    requires c !in s
    ensures Replace(s, c, text) == s
  {
    if s != "" {
      ReplaceAbsent(s[1..], c, text);
      assert s == [s[0]] + s[1..];
    }
  }

  lemma ReplaceOne(x: char, c: char, text: string)
    ensures Replace([x], c, text) == if x == c then text else [x]
  {
    assert [x][1..] == "";
  }

  lemma EscConcat(a: string, b: string)
    ensures Esc(a + b) == Esc(a) + Esc(b)
  {
    ReplaceConcat(a, b, '&', "&amp;");
    var a1, b1 := Replace(a, '&', "&amp;"), Replace(b, '&', "&amp;");
    ReplaceConcat(a1, b1, '<', "&lt;");
    var a2, b2 := Replace(a1, '<', "&lt;"), Replace(b1, '<', "&lt;");
    ReplaceConcat(a2, b2, '>', "&gt;");
    ReplaceConcat(Replace(a2, '>', "&gt;"), Replace(b2, '>', "&gt;"), '"', "&quot;");
  }

  /** Text without the later three characters passes the later three replacements unchanged. */
  lemma LaterThree(t: string)
    requires '<' !in t && '>' !in t && '"' !in t
    ensures Replace(Replace(Replace(t, '<', "&lt;"), '>', "&gt;"), '"', "&quot;") == t
  {
    ReplaceAbsent(t, '<', "&lt;");
    ReplaceAbsent(t, '>', "&gt;");
    ReplaceAbsent(t, '"', "&quot;");
  }

  lemma LaterTwo(t: string)
    requires '>' !in t && '"' !in t
    ensures Replace(Replace(t, '>', "&gt;"), '"', "&quot;") == t
  {
    ReplaceAbsent(t, '>', "&gt;");
    ReplaceAbsent(t, '"', "&quot;");
  }

  /** No later replacement touches the text an earlier one put in. */
  lemma EscOne(c: char)
    ensures Esc([c]) == Entity(c)
  {
    var t1 := Replace([c], '&', "&amp;");
    ReplaceOne(c, '&', "&amp;");
    if c == '&' {
      LaterThree(t1);
    } else {
      var t2 := Replace(t1, '<', "&lt;");
      ReplaceOne(c, '<', "&lt;");
      if c == '<' {
        LaterTwo(t2);
      } else {
        var t3 := Replace(t2, '>', "&gt;");
        ReplaceOne(c, '>', "&gt;");
        if c == '>' {
          ReplaceAbsent(t3, '"', "&quot;");
        } else {
          ReplaceOne(c, '"', "&quot;");
        }
      }
    }
  }

  /** The order of the four replacements is right: together they are one substitution. */
  lemma {:induction false} EscIsSubstitution(s: string)
    ensures Esc(s) == Substitute(s)
  {
    if s != "" {
      assert s == [s[0]] + s[1..];
      EscConcat([s[0]], s[1..]);
      EscOne(s[0]);
      EscIsSubstitution(s[1..]);
    }
  }

  // ---------- what a browser reads back ----------

  /** A left-to-right reader of the four entities. */
  function Unescape(s: string): string {
    if s == "" then ""
    else if "&amp;" <= s then "&" + Unescape(s[5..])
    else if "&lt;" <= s then "<" + Unescape(s[4..])
    else if "&gt;" <= s then ">" + Unescape(s[4..])
    else if "&quot;" <= s then "\"" + Unescape(s[6..])
    else [s[0]] + Unescape(s[1..])
  }

  lemma UnescapeEntity(c: char, rest: string)
    ensures Unescape(Entity(c) + rest) == [c] + Unescape(rest)
  {
    var s := Entity(c) + rest;
    assert s[|Entity(c)|..] == rest;
    assert s[0] == Entity(c)[0];
    if c == '&' || c == '<' || c == '>' || c == '"' {
      assert s[1] == Entity(c)[1];
      assert Entity(c) <= s;
    }
  }

  /** Escaping is read back exactly, so no two texts render the same. */
  lemma {:induction false} EscRoundTrip(s: string)
    ensures Unescape(Esc(s)) == s
  {
    EscIsSubstitution(s);
    if s != "" {
      EscIsSubstitution(s[1..]);
      UnescapeEntity(s[0], Substitute(s[1..]));
      EscRoundTrip(s[1..]);
      assert s == [s[0]] + s[1..];
    }
  }

  lemma EscInjective(s: string, t: string)
    ensures Esc(s) == Esc(t) <==> s == t
  {
    EscRoundTrip(s);
    EscRoundTrip(t);
  }

  lemma {:induction false} SubstituteSafe(s: string)
    ensures forall c :: c in Substitute(s) ==> c != '<' && c != '>' && c != '"'
  {
    if s != "" {
      SubstituteSafe(s[1..]);
    }
  }

  /** The output holds no raw `<`, `>` or `"`, so it can neither open a tag nor end an attribute. */
  lemma EscSafe(s: string)
    ensures '<' !in Esc(s) && '>' !in Esc(s) && '"' !in Esc(s)
  {
    EscIsSubstitution(s);
    SubstituteSafe(s);
  }
}

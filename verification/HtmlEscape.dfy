/** Escaping: five replacements, one after the other, starting with the ampersand. */
module HtmlEscape {

  function Replace(s: string, c: char, with: string): string {
    if s == "" then "" else (if s[0] == c then with else [s[0]]) + Replace(s[1..], c, with)
  }

  function EscapeHtml(s: string): string {
    var a := Replace(s, '&', "&amp;");
    var b := Replace(a, '<', "&lt;");
    var c := Replace(b, '>', "&gt;");
    var d := Replace(c, '"', "&quot;");
    Replace(d, '\'', "&#39;")
  }

  function Entity(c: char): string {
    if c == '&' then "&amp;"
    else if c == '<' then "&lt;"
    else if c == '>' then "&gt;"
    else if c == '"' then "&quot;"
    else if c == '\'' then "&#39;"
    else [c]
  }

  /** The reader's side: the first entity of a text, and what follows it. */
  function Unescape(s: string): string {
    if s == "" then ""
    else if "&amp;" <= s then "&" + Unescape(s[5..])
    else if "&lt;" <= s then "<" + Unescape(s[4..])
    else if "&gt;" <= s then ">" + Unescape(s[4..])
    else if "&quot;" <= s then "\"" + Unescape(s[6..])
    else if "&#39;" <= s then "'" + Unescape(s[5..])
    else [s[0]] + Unescape(s[1..])
  }

  lemma {:induction false} ReplaceAppend(a: string, b: string, c: char, with: string)
    ensures Replace(a + b, c, with) == Replace(a, c, with) + Replace(b, c, with)
  {
    if a == "" {
      assert a + b == b;
    } else {
      assert (a + b)[1..] == a[1..] + b;
      ReplaceAppend(a[1..], b, c, with);
    }
  }

  lemma {:induction false} ReplaceAbsent(s: string, c: char, with: string)
    requires c !in s
    ensures Replace(s, c, with) == s
  {
    if s != "" {
      assert s == [s[0]] + s[1..];
      ReplaceAbsent(s[1..], c, with);
    }
  }

  lemma ReplaceOne(c: char, with: string)
    ensures Replace([c], c, with) == with
  {
    assert Replace([c][1..], c, with) == "";
    assert with + "" == with;
  }

  lemma EscapeAppend(a: string, b: string)
    ensures EscapeHtml(a + b) == EscapeHtml(a) + EscapeHtml(b)
  {
    hide Replace;
    ReplaceAppend(a, b, '&', "&amp;");
    var a1, b1 := Replace(a, '&', "&amp;"), Replace(b, '&', "&amp;");
    ReplaceAppend(a1, b1, '<', "&lt;");
    var a2, b2 := Replace(a1, '<', "&lt;"), Replace(b1, '<', "&lt;");
    ReplaceAppend(a2, b2, '>', "&gt;");
    var a3, b3 := Replace(a2, '>', "&gt;"), Replace(b2, '>', "&gt;");
    ReplaceAppend(a3, b3, '"', "&quot;");
    var a4, b4 := Replace(a3, '"', "&quot;"), Replace(b3, '"', "&quot;");
    ReplaceAppend(a4, b4, '\'', "&#39;");
  }

  /** No later replacement touches what an earlier one wrote. */
  lemma EscapeOne(c: char)
    ensures EscapeHtml([c]) == Entity(c)
  {
    hide Replace;
    var s := Pass([c], '&', "&amp;");
    s := Pass(s, '<', "&lt;");
    s := Pass(s, '>', "&gt;");
    s := Pass(s, '"', "&quot;");
    s := Pass(s, '\'', "&#39;");
  }

  lemma Pass(s: string, c: char, with: string) returns (r: string)
    requires s == [c] || c !in s
    ensures r == Replace(s, c, with) == if s == [c] then with else s
  {
    r := Replace(s, c, with);
    if s == [c] {
      ReplaceOne(c, with);
    } else {
      ReplaceAbsent(s, c, with);
    }
  }

  lemma UnescapeEntity(c: char, rest: string)
    ensures Unescape(Entity(c) + rest) == [c] + Unescape(rest)
  {
    var e := Entity(c);
    var s := e + rest;
    assert s[|e|..] == rest;
    assert s[0] == e[0] && (|e| > 1 ==> s[1] == e[1] && e <= s);
    if c != '&' && c != '<' && c != '>' && c != '"' && c != '\'' {
      assert s[0] != '&' && s[1..] == rest;
    } else {
      assert c == '&' ==> s[1] == 'a';
      assert c == '<' ==> s[1] == 'l';
      assert c == '>' ==> s[1] == 'g';
      assert c == '"' ==> s[1] == 'q';
      assert c == '\'' ==> s[1] == '#';
    }
  }

  /** Escaped text holds no markup character, and reading its entities back gives the text. */
  lemma {:induction false} EscapeExact(s: string)
    ensures forall i | 0 <= i < |EscapeHtml(s)| :: EscapeHtml(s)[i] !in "<>\"'"
    ensures Unescape(EscapeHtml(s)) == s
  {
    hide EscapeHtml, Unescape;
    if s == "" {
      EscapeNothing();
    } else {
      var rest := s[1..];
      assert s == [s[0]] + rest;
      EscapeExact(rest);
      EscapeAppend([s[0]], rest);
      EscapeOne(s[0]);
      UnescapeEntity(s[0], EscapeHtml(rest));
    }
  }

  lemma EscapeNothing()
    ensures EscapeHtml("") == "" && Unescape("") == ""
  {
  }
}

/**
 A reader of the rendered text that knows nothing of the renderer: tags between angle brackets, the five
 entities, and every other character as itself.
 */
module HtmlReader {
  import opened HtmlEscape

  datatype Mark = Tag(name: string) | Ch(c: char)

  /** Where the first closing bracket is; the length when there is none. */
  function TagEnd(s: string): (n: nat)
    ensures n <= |s|
  {
    if s == "" || s[0] == '>' then 0 else 1 + TagEnd(s[1..])
  }

  function Read(s: string): seq<Mark> {
    if s == "" then []
    else if s[0] == '<' && TagEnd(s[1..]) < |s| - 1 then
      var n := TagEnd(s[1..]);
      [Tag(s[1..][..n])] + Read(s[1..][n + 1..])
    else if "&amp;" <= s then [Ch('&')] + Read(s[5..])
    else if "&lt;" <= s then [Ch('<')] + Read(s[4..])
    else if "&gt;" <= s then [Ch('>')] + Read(s[4..])
    else if "&quot;" <= s then [Ch('"')] + Read(s[6..])
    else if "&#39;" <= s then [Ch('\'')] + Read(s[5..])
    else [Ch(s[0])] + Read(s[1..])
  }

  /** The characters of a text, each read as itself; with `breaks`, a newline is read as a line break. */
  function Chars(x: string, breaks: bool): seq<Mark> {
    if x == "" then []
    else [if breaks && x[0] == '\n' then Tag("br") else Ch(x[0])] + Chars(x[1..], breaks)
  }

  lemma {:induction false} TagEndOf(name: string, rest: string)
    requires '>' !in name
    ensures TagEnd(name + ">" + rest) == |name|
  {
    var s := name + ">" + rest;
    if name != "" {
      assert s[1..] == name[1..] + ">" + rest;
      TagEndOf(name[1..], rest);
    }
  }

  lemma ReadTag(name: string, rest: string)
    requires '>' !in name
    ensures Read("<" + name + ">" + rest) == [Tag(name)] + Read(rest)
  {
    var s := "<" + name + ">" + rest;
    assert s[1..] == name + ">" + rest;
    TagEndOf(name, rest);
    assert s[1..][..|name|] == name && s[1..][|name| + 1..] == rest;
  }

  lemma ReadEntity(c: char, rest: string)
    ensures Read(Entity(c) + rest) == [Ch(c)] + Read(rest)
  {
    var e := Entity(c);
    var s := e + rest;
    assert s[|e|..] == rest;
    assert s[0] == e[0] && s[0] != '<' && (|e| > 1 ==> s[1] == e[1] && e <= s);
    if c != '&' && c != '<' && c != '>' && c != '"' && c != '\'' {
      assert s[0] != '&' && s[1..] == rest;
    } else {
      assert c == '&' ==> s[1] == 'a';
      assert c == '<' ==> s[1] == 'l';
      assert c == '>' ==> s[1] == 'g';
      assert c == '"' ==> s[1] == 'q';
      assert c == '\'' ==> s[1] == '#';
    }
  }

  function Broken(x: string, breaks: bool): string {
    if breaks then Replace(x, '\n', "<br>") else x
  }

  lemma BrokenAppend(a: string, b: string, breaks: bool)
    ensures Broken(a + b, breaks) == Broken(a, breaks) + Broken(b, breaks)
  {
    ReplaceAppend(a, b, '\n', "<br>");
  }

  lemma BrokenEntity(c: char, breaks: bool)
    ensures Broken(Entity(c), breaks) == if breaks && c == '\n' then "<br>" else Entity(c)
  {
    if c == '\n' {
      ReplaceOne('\n', "<br>");
    } else {
      ReplaceAbsent(Entity(c), '\n', "<br>");
    }
  }

  /** Escaped text, wherever it stands and with its newlines made into breaks or not, reads as the text: no
      character of it is ever taken for markup. */
  lemma {:induction false} ReadEscaped(x: string, breaks: bool, rest: string)
    ensures Read(Broken(EscapeHtml(x), breaks) + rest) == Chars(x, breaks) + Read(rest)
  {
    hide EscapeHtml, Read;
    if x == "" {
      EscapeNothing();
      assert Broken("", breaks) + rest == rest;
    } else {
      var tail := Broken(EscapeHtml(x[1..]), breaks);
      assert x == [x[0]] + x[1..];
      EscapeAppend([x[0]], x[1..]);
      EscapeOne(x[0]);
      BrokenAppend(Entity(x[0]), EscapeHtml(x[1..]), breaks);
      BrokenEntity(x[0], breaks);
      ReadEscaped(x[1..], breaks, rest);
      assert Broken(EscapeHtml(x), breaks) + rest == Broken(Entity(x[0]), breaks) + (tail + rest);
      if breaks && x[0] == '\n' {
        ReadTag("br", tail + rest);
        assert "<br>" + (tail + rest) == "<" + "br" + ">" + (tail + rest);
      } else {
        ReadEntity(x[0], tail + rest);
      }
    }
  }

  // ---------------------------------------------------------------- balanced tags

  /** Every tag that opens is closed by its own closing tag, in order; `open` holds those still open. A line
      break stands alone. */
  predicate Balanced(marks: seq<Mark>, open: seq<string>)
    decreases |marks|
  {
    if marks == [] then open == []
    else
      match marks[0]
      case Ch(_) => Balanced(marks[1..], open)
      case Tag(name) =>
        if name == "br" then Balanced(marks[1..], open)
        else if "/" <= name then
          open != [] && name[1..] == open[|open| - 1] && Balanced(marks[1..], open[..|open| - 1])
        else Balanced(marks[1..], open + [name])
  }

  /** Text changes nothing about the tags around it. */
  lemma {:induction false} CharsBalanced(x: string, breaks: bool, rest: seq<Mark>, open: seq<string>)
    ensures Balanced(Chars(x, breaks) + rest, open) <==> Balanced(rest, open)
  {
    hide Balanced;
    if x == "" {
      assert Chars(x, breaks) + rest == rest;
    } else {
      var tail := Chars(x[1..], breaks) + rest;
      var mark := if breaks && x[0] == '\n' then Tag("br") else Ch(x[0]);
      assert Chars(x, breaks) + rest == [mark] + tail;
      BalancedText(mark, tail, open);
      CharsBalanced(x[1..], breaks, rest, open);
    }
  }

  lemma BalancedText(mark: Mark, rest: seq<Mark>, open: seq<string>)
    requires mark.Ch? || mark == Tag("br")
    ensures Balanced([mark] + rest, open) <==> Balanced(rest, open)
  {
    assert ([mark] + rest)[1..] == rest;
  }
}

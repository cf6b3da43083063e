/** The renderer's output as text, and what a reader of that text sees. */
module MarkdownText {
  import opened Wrappers
  import LineBuffer
  import opened HtmlEscape
  import opened HtmlReader
  import opened Markdown

  function Normalize(md: string): string {
    if md == "" then ""
    else if "\r\n" <= md then "\n" + Normalize(md[2..])
    else [md[0]] + Normalize(md[1..])
  }

  predicate EndsAt(md: string, i: nat) {
    i + 1 < |md| && md[i] == '\r' && md[i + 1] == '\n'
  }

  /** No carriage return with a newline after it. */
  ghost predicate OneEnding(md: string) {
    forall i: nat :: !EndsAt(md, i)
  }

  /** Every carriage return and newline, from the left, becomes a newline; all else stays. */
  lemma {:induction false} NormalizeExact(a: string, b: string)
    requires OneEnding(a)
    ensures Normalize(a) == a && Normalize(a + "\r\n" + b) == a + "\n" + Normalize(b)
  {
    hide Normalize;
    NormalizeNone();
    if a == [] {
      NormalizeEnding(b);
      assert a + "\r\n" + b == "\r\n" + b;
    } else {
      var rest := a[1..];
      assert OneEnding(rest) by {
        assert forall i: nat | EndsAt(rest, i) :: EndsAt(a, i + 1);
      }
      NormalizeExact(rest, b);
      assert !EndsAt(a, 0);
      NormalizeOther(a[0], rest);
      NormalizeOther(a[0], rest + "\r\n" + b);
      assert a == [a[0]] + rest && a + "\r\n" + b == [a[0]] + (rest + "\r\n" + b);
    }
  }

  lemma NormalizeNone()
    ensures Normalize("") == ""
  {
  }

  lemma NormalizeEnding(rest: string)
    ensures Normalize("\r\n" + rest) == "\n" + Normalize(rest)
  {
    assert ("\r\n" + rest)[2..] == rest;
  }

  lemma NotAnEnding(md: string)
    ensures "\r\n" <= md ==> md[0] == '\r' && md[1] == '\n'
  {
    var ending := "\r\n";
    assert ending <= md ==> md[0] == ending[0] && md[1] == ending[1];
  }

  lemma NormalizeOther(first: char, rest: string)
    requires first != '\r' || rest == "" || rest[0] != '\n'
    ensures Normalize([first] + rest) == [first] + Normalize(rest)
  {
    var md := [first] + rest;
    assert md[1..] == rest && md[0] == first;
    assert rest != "" ==> md[1] == rest[0];
    NotAnEnding(md);
  }

  /** `inline` is the inline markup, applied to escaped text; `code` text is escaped only. */
  function Text(inline: string -> string, h: Html): string {
    match h
    case Para(lines) => "<p>" + Replace(inline(EscapeHtml(LineBuffer.Join(lines))), '\n', "<br>") + "</p>"
    case Blockquote(lines) =>
      "<blockquote>" + Replace(inline(EscapeHtml(LineBuffer.Join(lines))), '\n', "<br>") + "</blockquote>"
    case Code(lines) => "<pre><code>" + EscapeHtml(LineBuffer.Join(lines)) + "</code></pre>"
    case H(level, text) => "<h" + ["123456"[level - 1]] + ">" + inline(EscapeHtml(text)) + "</h" + ["123456"[level - 1]] + ">"
    case OpenList(kind) => if kind == Ul then "<ul>" else "<ol>"
    case Li(text) => "<li>" + inline(EscapeHtml(text)) + "</li>"
    case CloseList(kind) => if kind == Ul then "</ul>" else "</ol>"
  }

  function Concat(inline: string -> string, html: seq<Html>): string {
    if html == [] then "" else Text(inline, html[0]) + Concat(inline, html[1..])
  }

  // ---------------------------------------------------------------- reading the text back

  /** What a reader makes of inline markup: `m(x, breaks)` for the text `x`, its newlines made breaks or not. */
  type Reading = (string, bool) -> seq<Mark>

  /** However it is followed, the inline markup of a text reads as `m` says. */
  ghost predicate ReadsAs(inline: string -> string, m: Reading) {
    forall x, breaks, rest :: Read(Broken(inline(EscapeHtml(x)), breaks) + rest) == m(x, breaks) + Read(rest)
  }

  function Digit(level: Level): string {
    match level case 1 => "1" case 2 => "2" case 3 => "3" case 4 => "4" case 5 => "5" case 6 => "6"
  }

  /** What a reader should see of one entry. */
  function Marks(m: Reading, h: Html): seq<Mark> {
    match h
    case Para(lines) => [Tag("p")] + m(LineBuffer.Join(lines), true) + [Tag("/p")]
    case Blockquote(lines) => [Tag("blockquote")] + m(LineBuffer.Join(lines), true) + [Tag("/blockquote")]
    case Code(lines) => [Tag("pre"), Tag("code")] + Chars(LineBuffer.Join(lines), false) + [Tag("/code"), Tag("/pre")]
    case H(level, text) => [Tag("h" + Digit(level))] + m(text, false) + [Tag("/h" + Digit(level))]
    case OpenList(kind) => [Tag(if kind == Ul then "ul" else "ol")]
    case Li(text) => [Tag("li")] + m(text, false) + [Tag("/li")]
    case CloseList(kind) => [Tag(if kind == Ul then "/ul" else "/ol")]
  }

  function AllMarks(m: Reading, html: seq<Html>): seq<Mark> {
    if html == [] then [] else Marks(m, html[0]) + AllMarks(m, html[1..])
  }

  /** A tag, a body and a tag. */
  lemma ReadAround(open: string, body: string, close: string, marks: seq<Mark>, rest: string)
    requires '>' !in open && '>' !in close
    requires Read(body + ("<" + close + ">" + rest)) == marks + Read("<" + close + ">" + rest)
    ensures Read("<" + open + ">" + body + "<" + close + ">" + rest) == [Tag(open)] + marks + [Tag(close)] + Read(rest)
  {
    hide Read;
    var tail := "<" + close + ">" + rest;
    assert "<" + open + ">" + body + "<" + close + ">" + rest == "<" + open + ">" + (body + tail);
    ReadTag(open, body + tail);
    ReadTag(close, rest);
  }

  lemma ReadBody(inline: string -> string, m: Reading, open: string, x: string, breaks: bool, rest: string)
    requires ReadsAs(inline, m) && '>' !in open && '>' !in "/" + open
    ensures Read("<" + open + ">" + Broken(inline(EscapeHtml(x)), breaks) + "</" + open + ">" + rest)
         == [Tag(open)] + m(x, breaks) + [Tag("/" + open)] + Read(rest)
  {
    hide Read, EscapeHtml, Broken;
    var body := Broken(inline(EscapeHtml(x)), breaks);
    ReadAround(open, body, "/" + open, m(x, breaks), rest);
    assert "<" + open + ">" + body + "</" + open + ">" + rest == "<" + open + ">" + body + "<" + ("/" + open) + ">" + rest;
  }

  lemma ReadCode(x: string, rest: string)
    ensures Read("<pre><code>" + EscapeHtml(x) + "</code></pre>" + rest)
         == [Tag("pre"), Tag("code")] + Chars(x, false) + [Tag("/code"), Tag("/pre")] + Read(rest)
  {
    hide Read, EscapeHtml;
    var tail := "</pre>" + rest;
    ReadEscaped(x, false, "<" + "/code" + ">" + tail);
    ReadAround("code", EscapeHtml(x), "/code", Chars(x, false), tail);
    ReadTag("/pre", rest);
    assert tail == "<" + "/pre" + ">" + rest;
    var inner := "<" + "code" + ">" + EscapeHtml(x) + "<" + "/code" + ">" + tail;
    ReadTag("pre", inner);
    assert "<pre><code>" + EscapeHtml(x) + "</code></pre>" + rest == "<" + "pre" + ">" + inner;
  }

  /** One string, however it is put together. */
  lemma BodyText(inline: string -> string, lines: seq<string>, text: string, rest: string)
    ensures Text(inline, Para(lines)) + rest
         == "<" + "p" + ">" + Broken(inline(EscapeHtml(LineBuffer.Join(lines))), true) + "</" + "p" + ">" + rest
    ensures Text(inline, Blockquote(lines)) + rest
         == "<" + "blockquote" + ">" + Broken(inline(EscapeHtml(LineBuffer.Join(lines))), true) + "</" + "blockquote" + ">" + rest
    ensures Text(inline, Li(text)) + rest
         == "<" + "li" + ">" + Broken(inline(EscapeHtml(text)), false) + "</" + "li" + ">" + rest
  {
    hide EscapeHtml, Replace;
  }

  lemma HeadingText(inline: string -> string, level: Level, text: string, rest: string)
    ensures Text(inline, H(level, text)) + rest
         == "<" + ("h" + Digit(level)) + ">" + Broken(inline(EscapeHtml(text)), false) + "</" + ("h" + Digit(level)) + ">" + rest
  {
    hide EscapeHtml;
    assert ["123456"[level - 1]] == Digit(level);
  }

  lemma ReadList(inline: string -> string, m: Reading, kind: ListKind, rest: string)
    ensures Read(Text(inline, OpenList(kind)) + rest) == Marks(m, OpenList(kind)) + Read(rest)
    ensures Read(Text(inline, CloseList(kind)) + rest) == Marks(m, CloseList(kind)) + Read(rest)
  {
    hide Read;
    var name := if kind == Ul then "ul" else "ol";
    ReadTag(name, rest);
    ReadTag("/" + name, rest);
    assert Text(inline, OpenList(kind)) == "<" + name + ">" && Text(inline, CloseList(kind)) == "<" + ("/" + name) + ">";
    assert "/" + name == if kind == Ul then "/ul" else "/ol";
  }

  lemma ReadBodies(inline: string -> string, m: Reading, lines: seq<string>, text: string, rest: string)
    requires ReadsAs(inline, m)
    ensures Read(Text(inline, Para(lines)) + rest) == Marks(m, Para(lines)) + Read(rest)
    ensures Read(Text(inline, Blockquote(lines)) + rest) == Marks(m, Blockquote(lines)) + Read(rest)
    ensures Read(Text(inline, Li(text)) + rest) == Marks(m, Li(text)) + Read(rest)
  {
    hide Read, EscapeHtml, ReadsAs, Broken;
    ReadBody(inline, m, "p", LineBuffer.Join(lines), true, rest);
    ReadBody(inline, m, "blockquote", LineBuffer.Join(lines), true, rest);
    ReadBody(inline, m, "li", text, false, rest);
    BodyText(inline, lines, text, rest);
    hide Text;
    assert "/" + "p" == "/p" && "/" + "blockquote" == "/blockquote" && "/" + "li" == "/li";
  }

  lemma ReadEntry(inline: string -> string, m: Reading, h: Html, rest: string)
    requires ReadsAs(inline, m)
    ensures Read(Text(inline, h) + rest) == Marks(m, h) + Read(rest)
  {
    hide Read, EscapeHtml, ReadsAs, Replace;
    match h {
      case Para(lines) => ReadBodies(inline, m, lines, "", rest);
      case Blockquote(lines) => ReadBodies(inline, m, lines, "", rest);
      case Li(text) => ReadBodies(inline, m, [], text, rest);
      case Code(lines) => ReadCode(LineBuffer.Join(lines), rest);
      case H(level, text) =>
        ReadBody(inline, m, "h" + Digit(level), text, false, rest);
        HeadingText(inline, level, text, rest);
        assert "/" + ("h" + Digit(level)) == "/h" + Digit(level);
      case OpenList(kind) => ReadList(inline, m, kind, rest);
      case CloseList(kind) => ReadList(inline, m, kind, rest);
    }
  }

  /** For every inline markup that can be read at all: a reader of the output sees the tags of the entries, in
      order, and between them exactly the entries' text. */
  lemma {:induction false} ReadConcat(inline: string -> string, m: Reading, html: seq<Html>)
    requires ReadsAs(inline, m)
    ensures Read(Concat(inline, html)) == AllMarks(m, html)
  {
    if html != [] {
      hide Read, Text, Marks, ReadsAs;
      ReadConcat(inline, m, html[1..]);
      ReadEntry(inline, m, html[0], Concat(inline, html[1..]));
    }
  }

  /** Without inline markup every character of the text reads as itself. */
  lemma PlainReads()
    ensures ReadsAs(x => x, (x, breaks) => Chars(x, breaks))
  {
    forall x, breaks, rest
      ensures Read(Broken(EscapeHtml(x), breaks) + rest) == Chars(x, breaks) + Read(rest)
    {
      ReadEscaped(x, breaks, rest);
    }
  }

  // nesting

  /** Inline markup that opens and closes its own tags. */
  ghost predicate Neutral(m: Reading) {
    forall x, breaks, rest, open :: Balanced(m(x, breaks) + rest, open) <==> Balanced(rest, open)
  }

  function OpenTags(list: Option<ListKind>): seq<string> {
    match list case None => [] case Some(Ul) => ["ul"] case Some(Ol) => ["ol"]
  }

  lemma BalancedTag(name: string, rest: seq<Mark>, open: seq<string>)
    requires name != "" && name != "br" && name[0] != '/'
    ensures Balanced([Tag(name)] + rest, open) <==> Balanced(rest, open + [name])
  {
    assert ([Tag(name)] + rest)[1..] == rest;
  }

  lemma BalancedClose(name: string, rest: seq<Mark>, open: seq<string>)
    ensures Balanced([Tag("/" + name)] + rest, open + [name]) <==> Balanced(rest, open)
  {
    var close := "/" + name;
    assert close[0] == '/' && close[1..] == name && "/" <= close && close != "br";
    assert ([Tag(close)] + rest)[1..] == rest && (open + [name])[..|open|] == open;
  }

  lemma BalancedBody(m: Reading, name: string, x: string, breaks: bool, rest: seq<Mark>, open: seq<string>)
    requires Neutral(m) && name != "" && name != "br" && name[0] != '/'
    ensures Balanced([Tag(name)] + m(x, breaks) + [Tag("/" + name)] + rest, open) <==> Balanced(rest, open)
  {
    hide Balanced;
    var tail := [Tag("/" + name)] + rest;
    BalancedTag(name, m(x, breaks) + tail, open);
    BalancedClose(name, rest, open);
    assert [Tag(name)] + m(x, breaks) + [Tag("/" + name)] + rest == [Tag(name)] + (m(x, breaks) + tail);
  }

  lemma BalancedCode(x: string, rest: seq<Mark>, open: seq<string>)
    ensures Balanced([Tag("pre"), Tag("code")] + Chars(x, false) + [Tag("/code"), Tag("/pre")] + rest, open) <==> Balanced(rest, open)
  {
    hide Balanced;
    var closes := [Tag("/code")] + ([Tag("/pre")] + rest);
    var body := Chars(x, false) + closes;
    BalancedTag("pre", [Tag("code")] + body, open);
    BalancedTag("code", body, open + ["pre"]);
    CharsBalanced(x, false, closes, open + ["pre"] + ["code"]);
    BalancedClose("code", [Tag("/pre")] + rest, open + ["pre"]);
    BalancedClose("pre", rest, open);
    assert "/" + "code" == "/code" && "/" + "pre" == "/pre";
    assert [Tag("pre"), Tag("code")] + Chars(x, false) + [Tag("/code"), Tag("/pre")] + rest == [Tag("pre")] + ([Tag("code")] + body);
  }

  lemma EntryBalanced(m: Reading, h: Html, rest: seq<Mark>, open: seq<string>)
    requires Neutral(m) && !h.OpenList? && !h.CloseList?
    ensures Balanced(Marks(m, h) + rest, open) <==> Balanced(rest, open)
  {
    hide Balanced, Neutral;
    match h {
      case Para(lines) =>
        BalancedBody(m, "p", LineBuffer.Join(lines), true, rest, open);
        assert "/" + "p" == "/p";
      case Blockquote(lines) =>
        BalancedBody(m, "blockquote", LineBuffer.Join(lines), true, rest, open);
        assert "/" + "blockquote" == "/blockquote";
      case Code(lines) => BalancedCode(LineBuffer.Join(lines), rest, open);
      case H(level, text) =>
        var name := "h" + Digit(level);
        assert name[0] == 'h';
        BalancedBody(m, name, text, false, rest, open);
        assert "/" + name == "/h" + Digit(level);
      case Li(text) =>
        BalancedBody(m, "li", text, false, rest, open);
        assert "/" + "li" == "/li";
    }
  }

  /** Well-nested entries read as balanced tags. */
  lemma {:induction false} NestedBalanced(m: Reading, html: seq<Html>, list: Option<ListKind>)
    requires Neutral(m) && Nested(html, list)
    ensures Balanced(AllMarks(m, html), OpenTags(list))
    decreases |html|
  {
    if html != [] {
      var h, rest := html[0], AllMarks(m, html[1..]);
      if h.OpenList? {
        var name := if h.kind == Ul then "ul" else "ol";
        NestedBalanced(m, html[1..], Some(h.kind));
        assert [] + [name] == OpenTags(Some(h.kind));
        BalancedTag(name, rest, []);
      } else if h.CloseList? {
        var name := if h.kind == Ul then "ul" else "ol";
        NestedBalanced(m, html[1..], None);
        assert [] + [name] == OpenTags(Some(h.kind));
        BalancedClose(name, rest, []);
        assert "/" + name == if h.kind == Ul then "/ul" else "/ol";
      } else {
        NestedBalanced(m, html[1..], if h.Li? then list else None);
        EntryBalanced(m, h, rest, OpenTags(list));
      }
    }
  }

  lemma PlainNeutral()
    ensures Neutral((x, breaks) => Chars(x, breaks))
  {
    forall x, breaks, rest, open
      ensures Balanced(Chars(x, breaks) + rest, open) <==> Balanced(rest, open)
    {
      CharsBalanced(x, breaks, rest, open);
    }
  }

  // code, under any inline markup

  lemma {:induction false} ConcatAppend(inline: string -> string, a: seq<Html>, b: seq<Html>)
    ensures Concat(inline, a + b) == Concat(inline, a) + Concat(inline, b)
  {
    if a == [] {
      assert a + b == b;
    } else {
      assert (a + b)[1..] == a[1..] + b;
      ConcatAppend(inline, a[1..], b);
    }
  }

  /** Whatever the inline markup does, a code block's body holds no markup character and unescapes to its lines. */
  lemma CodeBodyExact(inline: string -> string, html: seq<Html>, k: nat)
    requires k < |html| && html[k].Code?
    ensures exists body: string ::
              && Concat(inline, html) == Concat(inline, html[..k]) + CodeText(body) + Concat(inline, html[k + 1..])
              && (forall i | 0 <= i < |body| :: body[i] !in "<>\"'")
              && Unescape(body) == LineBuffer.Join(html[k].lines)
  {
    hide Unescape, Concat;
    var body := EscapeHtml(LineBuffer.Join(html[k].lines));
    EscapeExact(LineBuffer.Join(html[k].lines));
    hide EscapeHtml, CodeText;
    var a, b := html[..k], html[k..];
    assert html == a + b && b[1..] == html[k + 1..];
    ConcatAppend(inline, a, b);
    CodeFirst(inline, b);
    assert Concat(inline, html) == Concat(inline, a) + (CodeText(body) + Concat(inline, html[k + 1..]));
    assert Concat(inline, html) == Concat(inline, a) + CodeText(body) + Concat(inline, html[k + 1..]);
  }

  function CodeText(body: string): string {
    "<pre><code>" + body + "</code></pre>"
  }

  lemma CodeFirst(inline: string -> string, html: seq<Html>)
    requires html != [] && html[0].Code?
    ensures Concat(inline, html) == CodeText(EscapeHtml(LineBuffer.Join(html[0].lines))) + Concat(inline, html[1..])
  {
  }

  /** The output is the text of the grouping. Read back by a reader that knows only tags and entities, it has the
      grouping's tags in order, balanced if the inline markup is, and between them the text of every content
      line; in particular, without inline markup, exactly the characters written. */
  method RenderMarkdown(patterns: Patterns, inline: string -> string, md: string) returns (out: string)
    ensures out == Concat(inline, Render(Group(ClassifyAll(patterns, LineBuffer.Split(Normalize(md))))))
    ensures exists html ::
              && Content(html, None) == Expected(ClassifyAll(patterns, LineBuffer.Split(Normalize(md))), false)
              && Nested(html, None)
              && forall m: Reading | ReadsAs(inline, m) ::
                   Read(out) == AllMarks(m, html) && (Neutral(m) ==> Balanced(Read(out), []))
  {
    var lines := LineBuffer.Split(Normalize(md));
    var r := new Renderer(patterns);
    r.ReadAll(lines);
    out := Concat(inline, r.html);
    forall m: Reading | ReadsAs(inline, m)
      ensures Read(out) == AllMarks(m, r.html) && (Neutral(m) ==> Balanced(Read(out), []))
    {
      ReadConcat(inline, m, r.html);
      if Neutral(m) {
        NestedBalanced(m, r.html, None);
      }
    }
  }

  /** With no inline markup at all: the reader sees the grouping's tags, balanced, and between them exactly the
      characters of the content lines, whatever markup those may look like. */
  method RenderPlain(patterns: Patterns, md: string) returns (out: string)
    ensures exists html ::
              && Content(html, None) == Expected(ClassifyAll(patterns, LineBuffer.Split(Normalize(md))), false)
              && Nested(html, None)
              && Read(out) == AllMarks((x, breaks) => Chars(x, breaks), html)
    ensures Balanced(Read(out), [])
  {
    out := RenderMarkdown(patterns, x => x, md);
    PlainReads();
    PlainNeutral();
  }
}

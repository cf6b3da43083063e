/**
 The issue body renderer: a machine that reads lines and keeps at most one block open, against a
 grouping of the lines into blocks.
 */
module Markdown {
  import opened Wrappers
  import LineBuffer

  datatype ListKind = Ul | Ol

  type Level = n: nat | 1 <= n <= 6 witness 1

  /** The line patterns, tried in the order of `Classify`. */
  datatype Patterns = Patterns(
    fence: string -> bool,
    blank: string -> bool,
    heading: string -> Option<(Level, string)>,
    unordered: string -> Option<string>,
    ordered: string -> Option<string>,
    quote: string -> Option<string>)

  datatype Line =
    | Fence(raw: string)
    | Blank(raw: string)
    | Heading(raw: string, level: Level, text: string)
    | Item(raw: string, kind: ListKind, text: string)
    | Quoted(raw: string, text: string)
    | Plain(raw: string)

  function Classify(p: Patterns, line: string): Line {
    if p.fence(line) then Fence(line)
    else if p.blank(line) then Blank(line)
    else if p.heading(line).Some? then Heading(line, p.heading(line).value.0, p.heading(line).value.1)
    else if p.unordered(line).Some? then Item(line, Ul, p.unordered(line).value)
    else if p.ordered(line).Some? then Item(line, Ol, p.ordered(line).value)
    else if p.quote(line).Some? then Quoted(line, p.quote(line).value)
    else Plain(line)
  }

  /** A fence is seen before all else; then blank lines, headings, bullets, numbers and quotes, the first that
      matches; any other line is plain. */
  lemma ClassifyFirst(p: Patterns, line: string)
    ensures
      var k := Classify(p, line);
      && k.raw == line
      && (k.Fence? <==> p.fence(line))
      && (k.Blank? <==> !p.fence(line) && p.blank(line))
      && (k.Heading? ==> p.heading(line) == Some((k.level, k.text)))
      && (k.Item? && k.kind == Ul <==> NoneBefore(p, line, 1) && p.unordered(line).Some?)
      && (k.Item? && k.kind == Ul ==> p.unordered(line) == Some(k.text))
      && (k.Item? && k.kind == Ol <==> NoneBefore(p, line, 2) && p.ordered(line).Some?)
      && (k.Item? && k.kind == Ol ==> p.ordered(line) == Some(k.text))
      && (k.Quoted? <==> NoneBefore(p, line, 3) && p.quote(line).Some?)
      && (k.Quoted? ==> p.quote(line) == Some(k.text))
      && (k.Plain? <==> NoneBefore(p, line, 4))
  {
  }

  /** Not a fence, not blank, not a heading, and none of the first `n - 1` of the three others. */
  predicate NoneBefore(p: Patterns, line: string, n: nat) {
    && !p.fence(line) && !p.blank(line) && p.heading(line).None?
    && (n > 1 ==> p.unordered(line).None?) && (n > 2 ==> p.ordered(line).None?) && (n > 3 ==> p.quote(line).None?)
  }

  function ClassifyAll(p: Patterns, lines: seq<string>): (r: seq<Line>)
    ensures |r| == |lines|
  {
    seq(|lines|, i requires 0 <= i < |lines| => Classify(p, lines[i]))
  }

  /** One entry of the output. */
  datatype Html =
    | Para(lines: seq<string>)
    | Blockquote(lines: seq<string>)
    | Code(lines: seq<string>)
    | H(level: Level, text: string)
    | OpenList(kind: ListKind)
    | Li(text: string)
    | CloseList(kind: ListKind)

  // ---------------------------------------------------------------- the grouping

  datatype Block =
    | Paragraph(lines: seq<string>)
    | ListOf(kind: ListKind, items: seq<string>)
    | Quotation(lines: seq<string>)
    | CodeBlock(lines: seq<string>)
    | Title(level: Level, text: string)

  /** What a following line must be for a block to go on. */
  datatype Need = PlainLine | QuotedLine | ItemLine(kind: ListKind) | NotFence

  predicate Fits(need: Need, line: Line) {
    match need
    case PlainLine => line.Plain?
    case QuotedLine => line.Quoted?
    case ItemLine(k) => line.Item? && line.kind == k
    case NotFence => !line.Fence?
  }

  function Piece(need: Need, line: Line): string
    requires Fits(need, line)
  {
    if need.QuotedLine? || need.ItemLine? then line.text else line.raw
  }

  /** The longest run of fitting lines, and what is left. */
  function Run(need: Need, lines: seq<Line>): (r: (seq<string>, seq<Line>))
    ensures |r.1| <= |lines|
    decreases |lines|
  {
    if lines == [] || !Fits(need, lines[0]) then ([], lines)
    else
      var (pieces, left) := Run(need, lines[1..]);
      ([Piece(need, lines[0])] + pieces, left)
  }

  function AfterFence(lines: seq<Line>): (r: seq<Line>)
    ensures |r| <= |lines|
  {
    if lines == [] then [] else lines[1..]
  }

  /** The block that the first line starts, if it is not blank, and the lines after that block. */
  function FirstBlock(lines: seq<Line>): (r: (Option<Block>, seq<Line>))
    requires lines != []
    ensures |r.1| < |lines|
  {
    var rest := lines[1..];
    match lines[0]
    case Blank(_) => (None, rest)
    case Heading(_, level, text) => (Some(Title(level, text)), rest)
    case Fence(_) => var (body, left) := Run(NotFence, rest); (Some(CodeBlock(body)), AfterFence(left))
    case Item(_, kind, text) => var (more, left) := Run(ItemLine(kind), rest); (Some(ListOf(kind, [text] + more)), left)
    case Quoted(_, text) => var (more, left) := Run(QuotedLine, rest); (Some(Quotation([text] + more)), left)
    case Plain(raw) => var (more, left) := Run(PlainLine, rest); (Some(Paragraph([raw] + more)), left)
  }

  function Group(lines: seq<Line>): seq<Block>
    decreases |lines|
  {
    if lines == [] then []
    else
      var (block, left) := FirstBlock(lines);
      (if block.Some? then [block.value] else []) + Group(left)
  }

  function Items(items: seq<string>): seq<Html> {
    if items == [] then [] else [Li(items[0])] + Items(items[1..])
  }

  function RenderBlock(b: Block): seq<Html> {
    match b
    case Paragraph(lines) => [Para(lines)]
    case ListOf(kind, items) => [OpenList(kind)] + Items(items) + [CloseList(kind)]
    case Quotation(lines) => [Blockquote(lines)]
    case CodeBlock(lines) => [Code(lines)]
    case Title(level, text) => [H(level, text)]
  }

  function Render(blocks: seq<Block>): seq<Html> {
    if blocks == [] then [] else RenderBlock(blocks[0]) + Render(blocks[1..])
  }

  // ---------------------------------------------------------------- nesting and content

  /** Whether `html` is well nested when read inside `list`: items only inside a list, every list closed
      by its own tag, nothing else inside a list. */
  predicate Nested(html: seq<Html>, list: Option<ListKind>)
    decreases |html|
  {
    if html == [] then list == None
    else
      match html[0]
      case OpenList(k) => list == None && Nested(html[1..], Some(k))
      case Li(_) => list.Some? && Nested(html[1..], list)
      case CloseList(k) => list == Some(k) && Nested(html[1..], None)
      case _ => list == None && Nested(html[1..], None)
  }

  lemma NestedCons(h: Html, tail: seq<Html>, list: Option<ListKind>)
    ensures h.OpenList? ==> Nested([h] + tail, list) == (list == None && Nested(tail, Some(h.kind)))
    ensures h.Li? ==> Nested([h] + tail, list) == (list.Some? && Nested(tail, list))
    ensures h.CloseList? ==> Nested([h] + tail, list) == (list == Some(h.kind) && Nested(tail, None))
    ensures !h.OpenList? && !h.Li? && !h.CloseList? ==> Nested([h] + tail, list) == (list == None && Nested(tail, None))
  {
    assert ([h] + tail)[1..] == tail;
  }

  lemma {:induction false} ItemsNested(kind: ListKind, items: seq<string>, tail: seq<Html>)
    requires Nested(tail, None)
    ensures Nested(Items(items) + [CloseList(kind)] + tail, Some(kind))
  {
    hide Nested;
    if items == [] {
      NestedCons(CloseList(kind), tail, Some(kind));
      assert Items(items) + [CloseList(kind)] + tail == [CloseList(kind)] + tail;
    } else {
      var more := Items(items[1..]) + [CloseList(kind)] + tail;
      ItemsNested(kind, items[1..], tail);
      NestedCons(Li(items[0]), more, Some(kind));
      assert Items(items) + [CloseList(kind)] + tail == [Li(items[0])] + more;
    }
  }

  lemma BlockNested(b: Block, tail: seq<Html>)
    requires Nested(tail, None)
    ensures Nested(RenderBlock(b) + tail, None)
  {
    hide Nested, Items;
    if b.ListOf? {
      var more := Items(b.items) + [CloseList(b.kind)] + tail;
      ItemsNested(b.kind, b.items, tail);
      NestedCons(OpenList(b.kind), more, None);
      assert RenderBlock(b) + tail == [OpenList(b.kind)] + more;
    } else {
      NestedCons(RenderBlock(b)[0], tail, None);
    }
  }

  lemma {:induction false} RenderNested(blocks: seq<Block>)
    ensures Nested(Render(blocks), None)
  {
    hide RenderBlock;
    if blocks != [] {
      hide Nested;
      RenderNested(blocks[1..]);
      BlockNested(blocks[0], Render(blocks[1..]));
    }
  }

  /** Where a line of content stands. */
  datatype Place = InText | InQuotation | InFence | InHeading(level: Level) | InListOf(kind: ListKind)

  datatype Passage = Passage(place: Place, text: string)

  function Placed(place: Place, lines: seq<string>): seq<Passage> {
    seq(|lines|, i requires 0 <= i < |lines| => Passage(place, lines[i]))
  }

  /** The content of the output when read inside `list`. */
  function Content(html: seq<Html>, list: Option<ListKind>): seq<Passage>
    decreases |html|
  {
    if html == [] then []
    else
      match html[0]
      case Para(lines) => Placed(InText, lines) + Content(html[1..], list)
      case Blockquote(lines) => Placed(InQuotation, lines) + Content(html[1..], list)
      case Code(lines) => Placed(InFence, lines) + Content(html[1..], list)
      case H(level, text) => [Passage(InHeading(level), text)] + Content(html[1..], list)
      case Li(text) =>
        (if list.Some? then [Passage(InListOf(list.value), text)] else []) + Content(html[1..], list)
      case OpenList(kind) => Content(html[1..], Some(kind))
      case CloseList(_) => Content(html[1..], None)
  }

  /** The text of every content line, in order and in its place: raw between fences, without its marker
      elsewhere. */
  function Expected(lines: seq<Line>, inCode: bool): seq<Passage> {
    if lines == [] then []
    else if lines[0].Fence? then Expected(lines[1..], !inCode)
    else if inCode then [Passage(InFence, lines[0].raw)] + Expected(lines[1..], true)
    else
      (match lines[0]
       case Blank(_) => []
       case Plain(raw) => [Passage(InText, raw)]
       case Heading(_, level, text) => [Passage(InHeading(level), text)]
       case Item(_, kind, text) => [Passage(InListOf(kind), text)]
       case Quoted(_, text) => [Passage(InQuotation, text)])
      + Expected(lines[1..], false)
  }

  lemma PlacedCons(place: Place, first: string, more: seq<string>)
    ensures Placed(place, [first] + more) == [Passage(place, first)] + Placed(place, more)
    ensures Placed(place, []) == []
  {
  }

  lemma ContentCons(h: Html, tail: seq<Html>, list: Option<ListKind>)
    ensures h.OpenList? ==> Content([h] + tail, list) == Content(tail, Some(h.kind))
    ensures h.CloseList? ==> Content([h] + tail, list) == Content(tail, None)
    ensures h.Li? && list.Some? ==>
      Content([h] + tail, list) == [Passage(InListOf(list.value), h.text)] + Content(tail, list)
    ensures h.H? ==> Content([h] + tail, list) == [Passage(InHeading(h.level), h.text)] + Content(tail, list)
    ensures h.Para? ==> Content([h] + tail, list) == Placed(InText, h.lines) + Content(tail, list)
    ensures h.Blockquote? ==> Content([h] + tail, list) == Placed(InQuotation, h.lines) + Content(tail, list)
    ensures h.Code? ==> Content([h] + tail, list) == Placed(InFence, h.lines) + Content(tail, list)
  {
    assert ([h] + tail)[1..] == tail;
  }

  lemma {:induction false} ItemsContent(kind: ListKind, items: seq<string>, tail: seq<Html>)
    ensures Content(Items(items) + [CloseList(kind)] + tail, Some(kind)) == Placed(InListOf(kind), items) + Content(tail, None)
  {
    hide Content, Placed;
    if items == [] {
      ContentCons(CloseList(kind), tail, Some(kind));
      PlacedCons(InListOf(kind), "", []);
      assert Items(items) + [CloseList(kind)] + tail == [CloseList(kind)] + tail;
    } else {
      var more := Items(items[1..]) + [CloseList(kind)] + tail;
      ItemsContent(kind, items[1..], tail);
      ContentCons(Li(items[0]), more, Some(kind));
      PlacedCons(InListOf(kind), items[0], items[1..]);
      assert items == [items[0]] + items[1..];
      assert Items(items) + [CloseList(kind)] + tail == [Li(items[0])] + more;
    }
  }

  function BlockContent(b: Block): seq<Passage> {
    match b
    case Paragraph(lines) => Placed(InText, lines)
    case Quotation(lines) => Placed(InQuotation, lines)
    case CodeBlock(lines) => Placed(InFence, lines)
    case ListOf(kind, items) => Placed(InListOf(kind), items)
    case Title(level, text) => [Passage(InHeading(level), text)]
  }

  lemma BlockContentExact(b: Block, tail: seq<Html>)
    ensures Content(RenderBlock(b) + tail, None) == BlockContent(b) + Content(tail, None)
  {
    hide Content, Placed, Items;
    if b.ListOf? {
      var more := Items(b.items) + [CloseList(b.kind)] + tail;
      ItemsContent(b.kind, b.items, tail);
      ContentCons(OpenList(b.kind), more, None);
      assert RenderBlock(b) + tail == [OpenList(b.kind)] + more;
    } else {
      ContentCons(RenderBlock(b)[0], tail, None);
    }
  }

  function PlaceOf(need: Need): Place {
    match need
    case PlainLine => InText
    case QuotedLine => InQuotation
    case ItemLine(kind) => InListOf(kind)
    case NotFence => InFence
  }

  lemma ExpectedFit(need: Need, lines: seq<Line>)
    requires lines != [] && Fits(need, lines[0])
    ensures Expected(lines, need.NotFence?)
         == [Passage(PlaceOf(need), Piece(need, lines[0]))] + Expected(lines[1..], need.NotFence?)
  {
  }

  lemma {:induction false} RunExpected(need: Need, lines: seq<Line>)
    ensures
      var (pieces, left) := Run(need, lines);
      && Expected(lines, need.NotFence?) == Placed(PlaceOf(need), pieces) + Expected(left, need.NotFence?)
      && (left == [] || !Fits(need, left[0]))
    decreases |lines|
  {
    hide Expected, Placed, PlaceOf;
    if lines != [] && Fits(need, lines[0]) {
      var (pieces, _) := Run(need, lines[1..]);
      RunExpected(need, lines[1..]);
      ExpectedFit(need, lines);
      PlacedCons(PlaceOf(need), Piece(need, lines[0]), pieces);
    } else {
      PlacedCons(PlaceOf(need), "", []);
    }
  }

  lemma FenceContent(rest: seq<Line>)
    ensures
      var (body, left) := Run(NotFence, rest);
      Expected(rest, true) == Placed(InFence, body) + Expected(AfterFence(left), false)
  {
    RunExpected(NotFence, rest);
  }

  /** A line that may go on begins its block. */
  lemma RestContent(need: Need, first: string, rest: seq<Line>)
    requires !need.NotFence?
    ensures
      var (more, left) := Run(need, rest);
      Placed(PlaceOf(need), [first] + more) + Expected(left, false)
      == [Passage(PlaceOf(need), first)] + Expected(rest, false)
  {
    hide Expected, Placed, PlaceOf, Run;
    var (more, _) := Run(need, rest);
    RunExpected(need, rest);
    PlacedCons(PlaceOf(need), first, more);
  }

  lemma ExpectedFirst(lines: seq<Line>)
    requires lines != []
    ensures
      var rest := Expected(lines[1..], false);
      Expected(lines, false) ==
      match lines[0]
      case Fence(_) => Expected(lines[1..], true)
      case Blank(_) => rest
      case Plain(raw) => [Passage(InText, raw)] + rest
      case Heading(_, level, text) => [Passage(InHeading(level), text)] + rest
      case Item(_, kind, text) => [Passage(InListOf(kind), text)] + rest
      case Quoted(_, text) => [Passage(InQuotation, text)] + rest
  {
  }

  lemma FirstBlockContent(lines: seq<Line>)
    requires lines != []
    ensures
      var (block, left) := FirstBlock(lines);
      Expected(lines, false) == (if block.Some? then BlockContent(block.value) else []) + Expected(left, false)
  {
    hide Expected, Run, Placed;
    var rest := lines[1..];
    ExpectedFirst(lines);
    match lines[0] {
      case Fence(_) => FenceContent(rest);
      case Item(_, kind, text) => RestContent(ItemLine(kind), text, rest);
      case Quoted(_, text) => RestContent(QuotedLine, text, rest);
      case Plain(raw) => RestContent(PlainLine, raw, rest);
      case _ =>
    }
  }

  /** Every content line is rendered exactly once, in order, and in its own place. */
  lemma {:induction false} GroupContent(lines: seq<Line>)
    ensures Content(Render(Group(lines)), None) == Expected(lines, false)
    decreases |lines|
  {
    if lines != [] {
      hide FirstBlock, Expected, RenderBlock, BlockContent, Content;
      var (block, left) := FirstBlock(lines);
      FirstBlockContent(lines);
      GroupContent(left);
      RenderFirst(lines);
      if block.Some? {
        BlockContentExact(block.value, Render(Group(left)));
      } else {
        assert [] + Render(Group(left)) == Render(Group(left));
      }
    }
  }

  /** How many blocks the lines begin, when the block open before them may go on as `open` says: a line that
      does not fit it ends it, and every line but a blank one or a closing fence begins the next. */
  function Begins(lines: seq<Line>, open: Option<Need>): nat {
    if lines == [] then 0
    else
      var line, rest := lines[0], lines[1..];
      if open.Some? && Fits(open.value, line) then Begins(rest, open)
      else if open == Some(NotFence) then Begins(rest, None)
      else
        match line
        case Blank(_) => Begins(rest, None)
        case Heading(_, _, _) => 1 + Begins(rest, None)
        case Fence(_) => 1 + Begins(rest, Some(NotFence))
        case Item(_, kind, _) => 1 + Begins(rest, Some(ItemLine(kind)))
        case Quoted(_, _) => 1 + Begins(rest, Some(QuotedLine))
        case Plain(_) => 1 + Begins(rest, Some(PlainLine))
  }

  lemma {:induction false} RunBegins(need: Need, lines: seq<Line>)
    ensures
      var left := Run(need, lines).1;
      Begins(lines, Some(need)) == if need.NotFence? then Begins(AfterFence(left), None) else Begins(left, None)
    decreases |lines|
  {
    if lines != [] && Fits(need, lines[0]) {
      RunBegins(need, lines[1..]);
    }
  }

  /** Lines are merged as far as they go: the grouping has a block for each line that begins one, and no more. */
  lemma {:induction false} GroupMerges(lines: seq<Line>)
    ensures |Group(lines)| == Begins(lines, None)
    decreases |lines|
  {
    if lines != [] {
      var rest := lines[1..];
      match lines[0] {
        case Fence(_) => RunBegins(NotFence, rest);
        case Item(_, kind, _) => RunBegins(ItemLine(kind), rest);
        case Quoted(_, _) => RunBegins(QuotedLine, rest);
        case Plain(_) => RunBegins(PlainLine, rest);
        case _ =>
      }
      GroupMerges(FirstBlock(lines).1);
    }
  }

  // ---------------------------------------------------------------- the machine

  /** What the output will be once `lines` are read with the given block open. */
  function Resume(m: Open, lines: seq<Line>): seq<Html> {
    match m
    case Nothing => Render(Group(lines))
    case InParagraph(p) => var (more, left) := Run(PlainLine, lines); [Para(p + more)] + Render(Group(left))
    case InQuote(q) => var (more, left) := Run(QuotedLine, lines); [Blockquote(q + more)] + Render(Group(left))
    case InList(kind) => var (more, left) := Run(ItemLine(kind), lines); Items(more) + [CloseList(kind)] + Render(Group(left))
    case InCode(c) => var (more, left) := Run(NotFence, lines); [Code(c + more)] + Render(Group(AfterFence(left)))
  }

  datatype Open =
    | Nothing
    | InParagraph(lines: seq<string>)
    | InQuote(lines: seq<string>)
    | InList(kind: ListKind)
    | InCode(lines: seq<string>)

  /** Which entries one line adds, and what it leaves open. */
  function Step(m: Open, line: Line): (seq<Html>, Open) {
    if m.InCode? then
      if line.Fence? then ([Code(m.lines)], Nothing) else ([], InCode(m.lines + [line.raw]))
    else
      match line
      case Fence(_) => (Flush(m), InCode([]))
      case Blank(_) => (Flush(m), Nothing)
      case Heading(_, level, text) => (Flush(m) + [H(level, text)], Nothing)
      case Item(_, kind, text) =>
        if m == InList(kind) then ([Li(text)], m) else (Flush(m) + [OpenList(kind), Li(text)], InList(kind))
      case Quoted(_, text) =>
        if m.InQuote? then ([], InQuote(m.lines + [text])) else (Flush(m), InQuote([text]))
      case Plain(raw) =>
        if m.InParagraph? then ([], InParagraph(m.lines + [raw])) else (Flush(m), InParagraph([raw]))
  }

  function Flush(m: Open): seq<Html> {
    match m
    case Nothing => []
    case InParagraph(p) => [Para(p)]
    case InQuote(q) => [Blockquote(q)]
    case InList(kind) => [CloseList(kind)]
    case InCode(c) => [Code(c)]
  }

  /** A block that cannot go on is flushed, and the rest is grouped from scratch. */
  lemma ResumeBreaks(m: Open, lines: seq<Line>)
    requires lines == [] || (match m
                             case Nothing => true
                             case InParagraph(_) => !lines[0].Plain?
                             case InQuote(_) => !lines[0].Quoted?
                             case InList(kind) => !(lines[0].Item? && lines[0].kind == kind)
                             case InCode(_) => false)
    ensures Resume(m, lines) == Flush(m) + Render(Group(lines))
  {
    hide Render, Group;
    if m.InParagraph? || m.InQuote? || m.InCode? {
      assert m.lines + [] == m.lines;
    }
    if m.Nothing? {
      assert Flush(m) + Render(Group(lines)) == Render(Group(lines));
    } else if m.InList? {
      assert Items([]) + [CloseList(m.kind)] == [CloseList(m.kind)];
    }
  }

  lemma RenderFirst(lines: seq<Line>)
    requires lines != []
    ensures
      var (block, left) := FirstBlock(lines);
      Render(Group(lines)) == (if block.Some? then RenderBlock(block.value) else []) + Render(Group(left))
  {
    var (block, left) := FirstBlock(lines);
    if block.Some? {
      assert Group(lines)[1..] == Group(left);
    } else {
      assert [] + Group(left) == Group(left) && [] + Render(Group(left)) == Render(Group(left));
    }
  }

  lemma StartsList(kind: ListKind, text: string, more: seq<string>, tail: seq<Html>)
    ensures RenderBlock(ListOf(kind, [text] + more)) + tail == [OpenList(kind), Li(text)] + (Items(more) + [CloseList(kind)] + tail)
  {
    assert ([text] + more)[1..] == more;
  }

  lemma StartsBlock(lines: seq<Line>)
    requires lines != []
    ensures
      var (out, next) := Step(Nothing, lines[0]);
      Render(Group(lines)) == out + Resume(next, lines[1..])
  {
    hide Render, Group, Run, Items;
    RenderFirst(lines);
    var rest := lines[1..];
    var tail := Render(Group(FirstBlock(lines).1));
    match lines[0] {
      case Item(_, kind, text) =>
        StartsList(kind, text, Run(ItemLine(kind), rest).0, tail);
        assert Step(Nothing, lines[0]).0 == [OpenList(kind), Li(text)];
      case Fence(_) => assert [] + Run(NotFence, rest).0 == Run(NotFence, rest).0;
      case Heading(_, level, text) => assert Step(Nothing, lines[0]).0 == [H(level, text)];
      case _ =>
    }
  }

  lemma GoesOn(m: Open, lines: seq<Line>)
    requires lines != [] && m != Nothing
    requires match m
             case InParagraph(_) => lines[0].Plain?
             case InQuote(_) => lines[0].Quoted?
             case InList(kind) => lines[0].Item? && lines[0].kind == kind
             case _ => true
    ensures
      var (out, next) := Step(m, lines[0]);
      Resume(m, lines) == out + Resume(next, lines[1..])
  {
    var need := match m
      case InParagraph(_) => PlainLine
      case InQuote(_) => QuotedLine
      case InList(kind) => ItemLine(kind)
      case _ => NotFence;
    var (more, left) := Run(need, lines[1..]);
    if m.InParagraph? || m.InQuote? || m.InCode? {
      assert m.lines + [] == m.lines;
      if Fits(need, lines[0]) {
        assert m.lines + ([Piece(need, lines[0])] + more) == (m.lines + [Piece(need, lines[0])]) + more;
      }
    }
  }

  lemma StepBreaks(m: Open, line: Line)
    requires match m
             case Nothing => true
             case InParagraph(_) => !line.Plain?
             case InQuote(_) => !line.Quoted?
             case InList(kind) => !(line.Item? && line.kind == kind)
             case InCode(_) => false
    ensures Step(m, line) == (Flush(m) + Step(Nothing, line).0, Step(Nothing, line).1)
  {
    var (out, next) := Step(m, line);
    assert Flush(m) + [] == Flush(m);
    match line {
      case Heading(_, level, text) => assert [] + [H(level, text)] == [H(level, text)];
      case Item(_, kind, text) => assert [] + [OpenList(kind), Li(text)] == [OpenList(kind), Li(text)];
      case _ =>
    }
  }

  lemma StepResumes(m: Open, lines: seq<Line>)
    requires lines != []
    ensures
      var (out, next) := Step(m, lines[0]);
      Resume(m, lines) == out + Resume(next, lines[1..])
  {
    var fits := match m
      case Nothing => false
      case InParagraph(_) => lines[0].Plain?
      case InQuote(_) => lines[0].Quoted?
      case InList(kind) => lines[0].Item? && lines[0].kind == kind
      case InCode(_) => true;
    hide Step, Resume, Flush, Render, Group;
    if fits {
      GoesOn(m, lines);
    } else {
      ResumeBreaks(m, lines);
      StartsBlock(lines);
      StepBreaks(m, lines[0]);
    }
  }

  lemma ClassifyTail(p: Patterns, lines: seq<string>, i: nat)
    requires i < |lines|
    ensures ClassifyAll(p, lines[i..])[0] == Classify(p, lines[i])
    ensures ClassifyAll(p, lines[i..])[1..] == ClassifyAll(p, lines[i + 1..])
  {
  }

  /** One call's local state. */
  class Renderer {
    const patterns: Patterns
    var html: seq<Html>
    var paragraph: seq<string>
    var listType: Option<ListKind>
    var blockquote: seq<string>
    var codeFence: Option<seq<string>>

    /** At most one of the four is open. */
    ghost predicate OneOpen()
      reads this
    {
      && (paragraph != [] ==> listType == None && blockquote == [] && codeFence == None)
      && (listType != None ==> blockquote == [] && codeFence == None)
      && (blockquote != [] ==> codeFence == None)
    }

    ghost function State(): Open
      reads this
      requires OneOpen()
    {
      if paragraph != [] then InParagraph(paragraph)
      else if blockquote != [] then InQuote(blockquote)
      else if listType.Some? then InList(listType.value)
      else if codeFence.Some? then InCode(codeFence.value)
      else Nothing
    }

    constructor (patterns: Patterns)
      ensures this.patterns == patterns && html == [] && OneOpen() && State() == Nothing
    {
      this.patterns := patterns;
      html, paragraph, listType, blockquote, codeFence := [], [], None, [], None;
    }

    method FlushParagraph()
      modifies this`html, this`paragraph
      ensures paragraph == []
      ensures html == old(html) + (if old(paragraph) == [] then [] else [Para(old(paragraph))])
    {
      if |paragraph| == 0 {
        return;
      }
      html := html + [Para(paragraph)];
      paragraph := [];
    }

    method FlushList()
      modifies this`html, this`listType
      ensures listType == None
      ensures html == old(html) + (if old(listType) == None then [] else [CloseList(old(listType).value)])
    {
      if listType == None {
        return;
      }
      html := html + [CloseList(listType.value)];
      listType := None;
    }

    method FlushBlockquote()
      modifies this`html, this`blockquote
      ensures blockquote == []
      ensures html == old(html) + (if old(blockquote) == [] then [] else [Blockquote(old(blockquote))])
    {
      if |blockquote| == 0 {
        return;
      }
      html := html + [Blockquote(blockquote)];
      blockquote := [];
    }

    method CloseBlocks()
      requires OneOpen() && codeFence == None
      modifies this`html, this`paragraph, this`listType, this`blockquote
      ensures OneOpen() && State() == Nothing
      ensures html == old(html) + Flush(old(State()))
    {
      FlushParagraph();
      FlushList();
      FlushBlockquote();
    }

    method ReadLine(line: string)
      requires OneOpen()
      modifies this
      ensures OneOpen()
      ensures html == old(html) + Step(old(State()), Classify(patterns, line)).0
      ensures State() == Step(old(State()), Classify(patterns, line)).1
    {
      if codeFence.Some? {
        if patterns.fence(line) {
          html := html + [Code(codeFence.value)];
          codeFence := None;
        } else {
          codeFence := Some(codeFence.value + [line]);
        }
        return;
      }
      if patterns.fence(line) {
        CloseBlocks();
        codeFence := Some([]);
        return;
      }
      if patterns.blank(line) {
        CloseBlocks();
        return;
      }
      var heading := patterns.heading(line);
      if heading.Some? {
        CloseBlocks();
        html := html + [H(heading.value.0, heading.value.1)];
        return;
      }
      var unordered := patterns.unordered(line);
      if unordered.Some? {
        ReadItem(Ul, unordered.value);
        return;
      }
      var ordered := patterns.ordered(line);
      if ordered.Some? {
        ReadItem(Ol, ordered.value);
        return;
      }
      var quote := patterns.quote(line);
      if quote.Some? {
        FlushParagraph();
        FlushList();
        blockquote := blockquote + [quote.value];
        return;
      }
      FlushList();
      FlushBlockquote();
      paragraph := paragraph + [line];
    }

    method ReadItem(kind: ListKind, text: string)
      requires OneOpen() && codeFence == None
      modifies this`html, this`paragraph, this`listType, this`blockquote
      ensures OneOpen() && State() == InList(kind)
      ensures html == old(html) + (if old(State()) == InList(kind) then [Li(text)]
                                   else Flush(old(State())) + [OpenList(kind), Li(text)])
    {
      FlushParagraph();
      FlushBlockquote();
      if listType != Some(kind) {
        FlushList();
        listType := Some(kind);
        html := html + [OpenList(kind)];
      }
      html := html + [Li(text)];
    }

    /** The loop renders the grouping of the lines. */
    method ReadAll(lines: seq<string>)
      requires OneOpen() && State() == Nothing && html == []
      modifies this
      ensures html == Render(Group(ClassifyAll(patterns, lines)))
      ensures Nested(html, None)
      ensures Content(html, None) == Expected(ClassifyAll(patterns, lines), false)
    {
      hide Render, Group, Run, Step, Resume, Classify;
      ghost var all := Render(Group(ClassifyAll(patterns, lines)));
      assert lines[0..] == lines;
      AtStart(ClassifyAll(patterns, lines));
      assert html + all == all;
      for i := 0 to |lines|
        invariant OneOpen()
        invariant html + Resume(State(), ClassifyAll(patterns, lines[i..])) == all
      {
        ClassifyTail(patterns, lines, i);
        StepResumes(State(), ClassifyAll(patterns, lines[i..]));
        ReadLine(lines[i]);
      }
      AtEnd(State(), ClassifyAll(patterns, lines[|lines|..]));
      if codeFence.Some? {
        html := html + [Code(codeFence.value)];
        codeFence := None;
      }
      CloseBlocks();
      RenderNested(Group(ClassifyAll(patterns, lines)));
      GroupContent(ClassifyAll(patterns, lines));
    }
  }

  lemma AtStart(lines: seq<Line>)
    ensures Resume(Nothing, lines) == Render(Group(lines))
  {
  }

  lemma AtEnd(m: Open, lines: seq<Line>)
    requires lines == []
    ensures Resume(m, lines) == Flush(m)
  {
    assert Render(Group([])) == [];
    if m.InParagraph? || m.InQuote? || m.InCode? {
      assert m.lines + [] == m.lines;
    }
  }
}

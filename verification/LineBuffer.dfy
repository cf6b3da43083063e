/**
 The driver's standard output arrives in chunks cut anywhere; its observer is called once for every
 line that is not blank.
 */
module LineBuffer {

  function Split(s: string): (parts: seq<string>)
    ensures |parts| > 0
  {
    if s == "" then [""]
    else if s[0] == '\n' then [""] + Split(s[1..])
    else
      var rest := Split(s[1..]);
      [[s[0]] + rest[0]] + rest[1..]
  }

  function Join(parts: seq<string>): string {
    if parts == [] then ""
    else if |parts| == 1 then parts[0]
    else parts[0] + "\n" + Join(parts[1..])
  }

  ghost predicate IsLine(line: string) {
    '\n' !in line
  }

  ghost predicate AreLines(parts: seq<string>) {
    forall i | 0 <= i < |parts| :: IsLine(parts[i])
  }

  lemma {:induction false} SplitJoins(s: string)
    ensures Join(Split(s)) == s && AreLines(Split(s))
  {
    if s != "" {
      var rest := Split(s[1..]);
      SplitJoins(s[1..]);
      assert s == [s[0]] + s[1..];
      if s[0] == '\n' {
        assert ([""] + rest)[1..] == rest;
      } else {
        assert Split(s)[1..] == rest[1..];
      }
    }
  }

  lemma {:induction false} SplitOfLine(line: string)
    requires IsLine(line)
    ensures Split(line) == [line]
  {
    if line != "" {
      assert line == [line[0]] + line[1..];
      SplitOfLine(line[1..]);
    }
  }

  lemma {:induction false} SplitAtNewline(line: string, s: string)
    requires IsLine(line)
    ensures Split(line + "\n" + s) == [line] + Split(s)
  {
    var all := line + "\n" + s;
    if line == "" {
      assert all[1..] == s;
    } else {
      assert line == [line[0]] + line[1..];
      assert all[1..] == line[1..] + "\n" + s;
      SplitAtNewline(line[1..], s);
    }
  }

  /** The lines of a text are the only newline-free pieces that join back to it. */
  lemma {:induction false} SplitUnique(parts: seq<string>)
    requires parts != [] && AreLines(parts)
    ensures Split(Join(parts)) == parts
  {
    if |parts| == 1 {
      SplitOfLine(parts[0]);
    } else {
      SplitUnique(parts[1..]);
      SplitAtNewline(parts[0], Join(parts[1..]));
    }
  }

  function Complete(s: string): seq<string> {
    Split(s)[..|Split(s)| - 1]
  }

  function Rest(s: string): string {
    Split(s)[|Split(s)| - 1]
  }

  /** More text only extends the last line. */
  lemma {:induction false} SplitAppend(a: string, b: string)
    ensures Split(a + b) == Complete(a) + Split(Rest(a) + b)
  {
    if a == "" {
      assert a + b == b;
    } else {
      assert (a + b)[1..] == a[1..] + b;
      SplitAppend(a[1..], b);
      var tail := Split(a[1..]);
      if a[0] != '\n' && |tail| == 1 {
        assert Rest(a) + b == [a[0]] + (tail[0] + b);
        assert ([a[0]] + (tail[0] + b))[1..] == tail[0] + b;
      }
    }
  }

  lemma RestAppend(a: string, b: string)
    ensures Complete(a + b) == Complete(a) + Complete(Rest(a) + b)
    ensures Rest(a + b) == Rest(Rest(a) + b)
  {
    hide Split;
    SplitAppend(a, b);
  }

  // ---------------------------------------------------------------- what the observer is told

  /** White space and line ends, as `trim` removes them. */
  predicate IsSpace(c: char) {
    c in "\t\n\r \U{000B}\U{000C}\U{00A0}\U{1680}\U{2028}\U{2029}\U{202F}\U{205F}\U{3000}\U{FEFF}"
    || '\U{2000}' <= c <= '\U{200A}'
  }

  predicate Blank(line: string) {
    forall i | 0 <= i < |line| :: IsSpace(line[i])
  }

  function NonBlank(lines: seq<string>): seq<string> {
    if lines == [] then []
    else (if Blank(lines[0]) then [] else [lines[0]]) + NonBlank(lines[1..])
  }

  /** A line with something in it that is not white space. */
  predicate Says(line: string) {
    exists i :: 0 <= i < |line| && !IsSpace(line[i])
  }

  /** Of the lines, exactly those that say something are kept. */
  lemma {:induction false} NonBlankExact(lines: seq<string>, line: string)
    ensures line in NonBlank(lines) <==> line in lines && Says(line)
  {
    if lines != [] {
      NonBlankExact(lines[1..], line);
      assert line in lines <==> line == lines[0] || line in lines[1..];
    }
  }

  lemma {:induction false} NonBlankAppend(a: seq<string>, b: seq<string>)
    ensures NonBlank(a + b) == NonBlank(a) + NonBlank(b)
  {
    if a == [] {
      assert a + b == b;
    } else {
      assert (a + b)[1..] == a[1..] + b;
      NonBlankAppend(a[1..], b);
    }
  }

  lemma NonBlankNext(lines: seq<string>, i: nat)
    requires i < |lines|
    ensures NonBlank(lines[i..]) == (if Blank(lines[i]) then [] else [lines[i]]) + NonBlank(lines[i + 1..])
  {
    assert lines[i..][1..] == lines[i + 1..];
  }

  lemma NonBlankOne(line: string)
    ensures NonBlank([line]) == (if Blank(line) then [] else [line])
    ensures NonBlank([]) == []
  {
    assert NonBlank([line][1..]) == [];
  }

  datatype State = State(buffer: string, calls: seq<string>)

  function Data(s: State, chunk: string): State {
    State(Rest(s.buffer + chunk), s.calls + NonBlank(Complete(s.buffer + chunk)))
  }

  function Feed(s: State, chunks: seq<string>): State
    decreases |chunks|
  {
    if chunks == [] then s else Feed(Data(s, chunks[0]), chunks[1..])
  }

  function Close(s: State): seq<string> {
    s.calls + NonBlank([s.buffer])
  }

  function Text(chunks: seq<string>): string {
    if chunks == [] then "" else chunks[0] + Text(chunks[1..])
  }

  lemma DataStep(calls: seq<string>, before: string, chunk: string)
    ensures Data(State(Rest(before), calls + NonBlank(Complete(before))), chunk)
            == State(Rest(before + chunk), calls + NonBlank(Complete(before + chunk)))
  {
    hide Complete, Rest, NonBlank;
    var more := Complete(Rest(before) + chunk);
    RestAppend(before, chunk);
    NonBlankAppend(Complete(before), more);
    assert calls + (NonBlank(Complete(before)) + NonBlank(more)) == calls + NonBlank(Complete(before)) + NonBlank(more);
  }

  lemma {:induction false} FeedIsSplit(calls: seq<string>, before: string, chunks: seq<string>)
    ensures Feed(State(Rest(before), calls + NonBlank(Complete(before))), chunks)
            == State(Rest(before + Text(chunks)), calls + NonBlank(Complete(before + Text(chunks))))
    decreases |chunks|
  {
    if chunks == [] {
      assert before + "" == before;
    } else {
      DataStep(calls, before, chunks[0]);
      assert (before + chunks[0]) + Text(chunks[1..]) == before + Text(chunks);
      FeedIsSplit(calls, before + chunks[0], chunks[1..]);
    }
  }

  lemma NothingYet()
    ensures Rest("") == "" && [] + NonBlank(Complete("")) == []
    ensures forall more: seq<string> :: [] + more == more
  {
  }

  /** However the output was cut: the calls are the non-blank lines of the whole of it. Before the end,
      every finished line has been reported and the unfinished one is held back. */
  lemma ChunkingInvariance(chunks: seq<string>)
    ensures Close(Feed(State("", []), chunks)) == NonBlank(Split(Text(chunks)))
    ensures Feed(State("", []), chunks) == State(Rest(Text(chunks)), NonBlank(Complete(Text(chunks))))
  {
    hide Split, NonBlank, Feed, Text;
    var text := Text(chunks);
    NothingYet();
    FeedIsSplit([], "", chunks);
    assert "" + text == text;
    assert Complete(text) + [Rest(text)] == Split(text);
    NonBlankAppend(Complete(text), [Rest(text)]);
  }

  /** The driver process's callbacks. */
  class Driver {
    var lineBuffer: string
    var timedOut: bool
    var failed: bool
    var calls: seq<string>

    function Abstract(): State
      reads this
    {
      State(lineBuffer, calls)
    }

    constructor ()
      ensures Abstract() == State("", []) && !timedOut && !failed
    {
      lineBuffer, timedOut, failed, calls := "", false, false, [];
    }

    method OnTimeout()
      modifies this`timedOut
      ensures timedOut
    {
      timedOut := true;
    }

    /** The child's error event, for instance when it cannot be started. */
    method OnError()
      modifies this`failed
      ensures failed
    {
      failed := true;
    }

    method OnData(chunk: string)
      modifies this`lineBuffer, this`calls
      ensures Abstract() == Data(old(Abstract()), chunk)
      ensures IsLine(lineBuffer)
    {
      hide Split, NonBlank, Blank;
      lineBuffer := lineBuffer + chunk;
      var lines := Split(lineBuffer);
      SplitJoins(lineBuffer);
      lines, lineBuffer := lines[..|lines| - 1], lines[|lines| - 1];
      assert lines[0..] == lines;
      for i := 0 to |lines|
        invariant calls + NonBlank(lines[i..]) == old(calls) + NonBlank(lines)
        invariant lineBuffer == Rest(old(lineBuffer) + chunk) && IsLine(lineBuffer)
      {
        NonBlankNext(lines, i);
        if !Blank(lines[i]) {
          calls := calls + [lines[i]];
        }
      }
      assert lines[|lines|..] == [] && NonBlank([]) == [] by {
        NonBlankOne("");
      }
    }

    /** The last line is reported even after a timeout or an error, either of which has the call rejected. */
    method OnClose() returns (ok: bool)
      modifies this`calls
      ensures calls == Close(old(Abstract()))
      ensures ok <==> !timedOut && !failed
    {
      NonBlankOne(lineBuffer);
      if !Blank(lineBuffer) {
        calls := calls + [lineBuffer];
      }
      return !timedOut && !failed;
    }
  }

  /** The life of a driver process: its output arrives in `chunks`, its timer fires and its error event comes
      before the chunk of that number if there is one, and it closes. Neither changes a call; each makes the
      outcome an error. */
  method RunDriver(chunks: seq<string>, timerFiresAt: nat, errorAt: nat) returns (calls: seq<string>, ok: bool)
    ensures calls == NonBlank(Split(Text(chunks)))
    ensures forall line :: line in calls <==> line in Split(Text(chunks)) && Says(line)
    ensures ok <==> timerFiresAt > |chunks| && errorAt > |chunks|
  {
    var driver := new Driver();
    assert chunks[0..] == chunks;
    for i := 0 to |chunks|
      invariant Feed(driver.Abstract(), chunks[i..]) == Feed(State("", []), chunks)
      invariant driver.timedOut <==> timerFiresAt < i
      invariant driver.failed <==> errorAt < i
    {
      if i == timerFiresAt {
        driver.OnTimeout();
      }
      if i == errorAt {
        driver.OnError();
      }
      assert chunks[i..][1..] == chunks[i + 1..];
      driver.OnData(chunks[i]);
    }
    if timerFiresAt == |chunks| {
      driver.OnTimeout();
    }
    if errorAt == |chunks| {
      driver.OnError();
    }
    ChunkingInvariance(chunks);
    ok := driver.OnClose();
    calls := driver.calls;
    forall line
      ensures line in calls <==> line in Split(Text(chunks)) && Says(line)
    {
      NonBlankExact(Split(Text(chunks)), line);
    }
  }
}

/**
 Reading a stage run's events back. Stream events carry the line number their producer gave them,
 lifecycle events only the database's timestamp; the reader merges the two orders.
 */
module EventMerge {
  import opened Wrappers

  datatype Event = Event(id: nat, time: int, line: Option<int>)

  // ---------------------------------------------------------------- the two kinds

  predicate AllStreams(s: seq<Event>) {
    forall i | 0 <= i < |s| :: s[i].line.Some?
  }

  predicate AllLifecycle(s: seq<Event>) {
    forall i | 0 <= i < |s| :: s[i].line.None?
  }

  function Streams(rows: seq<Event>): (r: seq<Event>)
    ensures AllStreams(r)
  {
    if rows == [] then []
    else (if rows[0].line.Some? then [rows[0]] else []) + Streams(rows[1..])
  }

  function Lifecycle(rows: seq<Event>): (r: seq<Event>)
    ensures AllLifecycle(r)
  {
    if rows == [] then []
    else (if rows[0].line.None? then [rows[0]] else []) + Lifecycle(rows[1..])
  }

  lemma {:induction false} StreamsAppend(a: seq<Event>, b: seq<Event>)
    ensures Streams(a + b) == Streams(a) + Streams(b)
  {
    if a == [] {
      assert a + b == b;
    } else {
      assert (a + b)[1..] == a[1..] + b;
      StreamsAppend(a[1..], b);
    }
  }

  lemma {:induction false} KindsSplit(rows: seq<Event>)
    ensures multiset(rows) == multiset(Streams(rows)) + multiset(Lifecycle(rows))
  {
    if rows != [] {
      assert rows == [rows[0]] + rows[1..];
      KindsSplit(rows[1..]);
    }
  }

  lemma {:induction false} KindsIn(rows: seq<Event>, e: Event)
    ensures e in Streams(rows) <==> e in rows && e.line.Some?
    ensures e in Lifecycle(rows) <==> e in rows && e.line.None?
  {
    if rows != [] {
      KindsIn(rows[1..], e);
      assert e in rows <==> e == rows[0] || e in rows[1..];
    }
  }

  ghost predicate TimeOrdered(rows: seq<Event>) {
    forall i, j | 0 <= i < j < |rows| :: rows[i].time <= rows[j].time
  }

  lemma {:induction false} LifecycleTimeOrdered(rows: seq<Event>)
    requires TimeOrdered(rows)
    ensures TimeOrdered(Lifecycle(rows))
  {
    if rows != [] {
      LifecycleTimeOrdered(rows[1..]);
      forall e | e in Lifecycle(rows[1..])
        ensures rows[0].time <= e.time
      {
        KindsIn(rows[1..], e);
      }
    }
  }

  // ---------------------------------------------------------------- the stable sort by line number

  ghost predicate LineOrdered(s: seq<Event>)
    requires AllStreams(s)
  {
    forall i, j | 0 <= i < j < |s| :: s[i].line.value <= s[j].line.value
  }

  function Insert(e: Event, s: seq<Event>): (r: seq<Event>)
    requires e.line.Some? && AllStreams(s)
    ensures AllStreams(r)
  {
    if s == [] || e.line.value <= s[0].line.value then [e] + s else [s[0]] + Insert(e, s[1..])
  }

  /** The engine's sort is stable, and so is this one. */
  function SortByLine(s: seq<Event>): (r: seq<Event>)
    requires AllStreams(s)
    ensures AllStreams(r)
  {
    if s == [] then [] else Insert(s[0], SortByLine(s[1..]))
  }

  lemma {:induction false} InsertKeeps(e: Event, s: seq<Event>)
    requires e.line.Some? && AllStreams(s)
    ensures multiset(Insert(e, s)) == multiset([e]) + multiset(s)
  {
    if s != [] && e.line.value > s[0].line.value {
      assert s == [s[0]] + s[1..];
      InsertKeeps(e, s[1..]);
    }
  }

  lemma {:induction false} InsertSorts(e: Event, s: seq<Event>)
    requires e.line.Some? && AllStreams(s) && LineOrdered(s)
    ensures LineOrdered(Insert(e, s))
  {
    if s != [] && e.line.value > s[0].line.value {
      var rest := s[1..];
      InsertSorts(e, rest);
      assert Insert(e, rest)[0] == e || Insert(e, rest)[0] == rest[0];
    }
  }

  lemma {:induction false} SortSorts(s: seq<Event>)
    requires AllStreams(s)
    ensures multiset(SortByLine(s)) == multiset(s)
    ensures LineOrdered(SortByLine(s))
  {
    if s != [] {
      assert s == [s[0]] + s[1..];
      SortSorts(s[1..]);
      InsertKeeps(s[0], SortByLine(s[1..]));
      InsertSorts(s[0], SortByLine(s[1..]));
    }
  }

  function WithLine(s: seq<Event>, n: int): seq<Event> {
    if s == [] then []
    else (if s[0].line == Some(n) then [s[0]] else []) + WithLine(s[1..], n)
  }

  lemma WithLineCons(e: Event, s: seq<Event>, n: int)
    ensures WithLine([e] + s, n) == (if e.line == Some(n) then [e] else []) + WithLine(s, n)
  {
    assert ([e] + s)[1..] == s;
  }

  lemma {:induction false} InsertStable(e: Event, s: seq<Event>, n: int)
    requires e.line.Some? && AllStreams(s)
    ensures WithLine(Insert(e, s), n) == WithLine([e] + s, n)
  {
    hide WithLine, Insert;
    InsertUnfolds(e, s);
    if s != [] && e.line.value > s[0].line.value {
      var rest := s[1..];
      InsertStable(e, rest, n);
      WithLineCons(s[0], Insert(e, rest), n);
      WithLineCons(e, rest, n);
      WithLineCons(e, s, n);
      WithLineCons(s[0], rest, n);
      assert s == [s[0]] + rest;
    }
  }

  lemma InsertUnfolds(e: Event, s: seq<Event>)
    requires e.line.Some? && AllStreams(s)
    ensures s == [] || e.line.value <= s[0].line.value ==> Insert(e, s) == [e] + s
    ensures s != [] && e.line.value > s[0].line.value ==> Insert(e, s) == [s[0]] + Insert(e, s[1..])
  {
  }

  /** Events with the same line number keep their order. */
  lemma {:induction false} SortStable(s: seq<Event>, n: int)
    requires AllStreams(s)
    ensures WithLine(SortByLine(s), n) == WithLine(s, n)
  {
    if s != [] {
      SortStable(s[1..], n);
      InsertStable(s[0], SortByLine(s[1..]), n);
      WithLineCons(s[0], SortByLine(s[1..]), n);
    }
  }

  lemma {:induction false} SortOfOrdered(s: seq<Event>)
    requires AllStreams(s) && LineOrdered(s)
    ensures SortByLine(s) == s
  {
    if s != [] {
      SortOfOrdered(s[1..]);
      assert s == [s[0]] + s[1..];
    }
  }

  lemma SortOfSorted(s: seq<Event>)
    requires AllStreams(s)
    ensures SortByLine(s) == s <==> LineOrdered(s)
  {
    SortSorts(s);
    if LineOrdered(s) {
      SortOfOrdered(s);
    }
  }

  // ---------------------------------------------------------------- the merge

  /** Each lifecycle event goes before the first stream event that is not older. */
  function Merge(stream: seq<Event>, life: seq<Event>): seq<Event>
    decreases |stream| + |life|
  {
    if life != [] && (stream == [] || life[0].time <= stream[0].time) then
      [life[0]] + Merge(stream, life[1..])
    else if stream != [] then
      [stream[0]] + Merge(stream[1..], life)
    else
      []
  }

  /** How many stream events, in their own order, come before the first whose time is at or after `t`. */
  function FirstAtOrAfter(stream: seq<Event>, t: int): (n: nat)
    ensures n <= |stream|
    ensures forall i | 0 <= i < n :: stream[i].time < t
    ensures n < |stream| ==> stream[n].time >= t
  {
    if stream == [] || stream[0].time >= t then 0 else 1 + FirstAtOrAfter(stream[1..], t)
  }

  ghost predicate AllAfter(life: seq<Event>, t: int) {
    forall i | 0 <= i < |life| :: life[i].time > t
  }

  lemma StreamsTail(r: seq<Event>, p: nat)
    requires p < |r| - 1
    ensures |Streams(r[..p + 1])| == |Streams(r[1..][..p])| + (if r[0].line.Some? then 1 else 0)
  {
    assert r[..p + 1][1..] == r[1..][..p];
  }

  predicate PlacedAtIndex(r: seq<Event>, p: nat)
    requires p < |r|
  {
    r[p].line.None? ==> |Streams(r[..p])| == FirstAtOrAfter(Streams(r), r[p].time)
  }

  ghost predicate Placed(r: seq<Event>) {
    forall p | 0 <= p < |r| :: PlacedAtIndex(r, p)
  }

  lemma PlacedAtSuccessor(r: seq<Event>, p: nat)
    requires p < |r| - 1
    ensures PlacedAtIndex(r, p + 1) <==>
            PlacedAtIndex(r[1..], p) && (r[0].line.Some? && r[p + 1].line.None? ==> r[0].time < r[p + 1].time)
  {
    StreamsTail(r, p);
    assert r[1..][p] == r[p + 1];
    assert Streams(r) == (if r[0].line.Some? then [r[0]] else []) + Streams(r[1..]);
    assert r[0].line.Some? ==> Streams(r)[1..] == Streams(r[1..]);
    assert r[0].line.None? ==> Streams(r) == Streams(r[1..]);
  }

  /** Placement read from the front. */
  lemma PlacedCons(r: seq<Event>)
    requires r != []
    ensures Placed(r) <==>
            && Placed(r[1..])
            && (r[0].line.None? ==> FirstAtOrAfter(Streams(r), r[0].time) == 0)
            && (r[0].line.Some? ==> AllAfter(Lifecycle(r[1..]), r[0].time))
  {
    hide FirstAtOrAfter, Streams, Lifecycle, AllAfter;
    var rest := r[1..];
    LifecycleTimes(rest, r[0].time);
    if Placed(r) {
      forall p | 0 <= p < |rest|
        ensures PlacedAtIndex(rest, p) && (r[0].line.Some? && rest[p].line.None? ==> r[0].time < rest[p].time)
      {
        PlacedAtSuccessor(r, p);
      }
    }
    PlacedFirst(r);
    if Placed(rest) && PlacedAtIndex(r, 0) && (r[0].line.Some? ==> AllAfter(Lifecycle(rest), r[0].time)) {
      forall p | 0 <= p < |r|
        ensures PlacedAtIndex(r, p)
      {
        if p > 0 {
          PlacedAtSuccessor(r, p - 1);
          assert PlacedAtIndex(rest, p - 1) && rest[p - 1] == r[p];
        }
      }
    }
  }

  lemma PlacedFirst(r: seq<Event>)
    requires r != []
    ensures PlacedAtIndex(r, 0) <==> (r[0].line.None? ==> FirstAtOrAfter(Streams(r), r[0].time) == 0)
  {
    assert r[..0] == [];
  }

  lemma LifecycleTimes(rows: seq<Event>, t: int)
    ensures AllAfter(Lifecycle(rows), t) <==>
            forall p | 0 <= p < |rows| && rows[p].line.None? :: t < rows[p].time
  {
    var life := Lifecycle(rows);
    forall e
      ensures e in life <==> e in rows && e.line.None?
    {
      KindsIn(rows, e);
    }
    assert AllAfter(life, t) <==> forall e | e in life :: t < e.time;
    assert forall p | 0 <= p < |rows| && rows[p].line.None? :: rows[p] in life;
  }

  lemma {:induction false} MergeKinds(stream: seq<Event>, life: seq<Event>)
    requires AllStreams(stream) && AllLifecycle(life)
    ensures Streams(Merge(stream, life)) == stream
    ensures Lifecycle(Merge(stream, life)) == life
    decreases |stream| + |life|
  {
    if life != [] && (stream == [] || life[0].time <= stream[0].time) {
      MergeKinds(stream, life[1..]);
    } else if stream != [] {
      MergeKinds(stream[1..], life);
    }
  }

  lemma {:induction false} MergePlaced(stream: seq<Event>, life: seq<Event>)
    requires AllStreams(stream) && AllLifecycle(life)
    requires TimeOrdered(life)
    ensures Placed(Merge(stream, life))
    decreases |stream| + |life|
  {
    hide Placed;
    MergeKinds(stream, life);
    if life != [] && (stream == [] || life[0].time <= stream[0].time) {
      MergePlaced(stream, life[1..]);
      PlacedCons(Merge(stream, life));
    } else if stream != [] {
      MergePlaced(stream[1..], life);
      MergeKinds(stream[1..], life);
      PlacedCons(Merge(stream, life));
    } else {
      assert Merge(stream, life) == [];
      PlacedNil();
    }
  }

  lemma PlacedNil()
    ensures Placed([])
  {
  }

  /** Nothing but the merge has these streams, these lifecycle events and this placement. */
  lemma {:induction false} PlacedIsMerge(r: seq<Event>)
    requires Placed(r)
    ensures r == Merge(Streams(r), Lifecycle(r))
  {
    if r != [] {
      PlacedCons(r);
      hide Placed;
      PlacedIsMerge(r[1..]);
      var stream, life := Streams(r), Lifecycle(r);
      assert r[0].line.Some? ==> stream[1..] == Streams(r[1..]) && life == Lifecycle(r[1..]);
      assert r[0].line.None? ==> life[1..] == Lifecycle(r[1..]) && stream == Streams(r[1..]);
      assert r[0].line.Some? ==> life == [] || life[0].time > stream[0].time;
      assert r[0].line.None? ==> stream == [] || life[0].time <= stream[0].time;
      assert r == [r[0]] + r[1..];
    }
  }

  function Merged(rows: seq<Event>): seq<Event> {
    Merge(SortByLine(Streams(rows)), Lifecycle(rows))
  }

  /** What is read back: the same rows, the stream in line order (ties as they were), the lifecycle in
      time order, and each lifecycle event right where its time puts it among the stream. */
  lemma MergedExact(rows: seq<Event>, result: seq<Event>)
    requires TimeOrdered(rows)
    ensures result == Merged(rows) <==>
      && Streams(result) == SortByLine(Streams(rows))
      && Lifecycle(result) == Lifecycle(rows)
      && Placed(result)
    ensures multiset(Merged(rows)) == multiset(rows)
  {
    hide Streams, Lifecycle, Placed, Merge, SortByLine;
    var stream, life := SortByLine(Streams(rows)), Lifecycle(rows);
    SortSorts(Streams(rows));
    LifecycleTimeOrdered(rows);
    MergeKinds(stream, life);
    MergePlaced(stream, life);
    if Placed(result) {
      PlacedIsMerge(result);
    }
    KindsSplit(rows);
    KindsSplit(Merged(rows));
  }

  // ---------------------------------------------------------------- when the clocks agree

  /** No lifecycle event shares its time with a stream event committed before it. */
  ghost predicate NoTies(rows: seq<Event>) {
    forall i, p | 0 <= i < p < |rows| && rows[i].line.Some? && rows[p].line.None? :: rows[i].time != rows[p].time
  }

  lemma {:induction false} FirstIn(a: seq<Event>, b: seq<Event>, t: int)
    requires forall i | 0 <= i < |a| :: a[i].time <= t
    requires forall i | 0 <= i < |b| :: b[i].time >= t
    ensures FirstAtOrAfter(a + b, t) == |a| <==> forall i | 0 <= i < |a| :: a[i].time != t
  {
    if a == [] {
      assert a + b == b;
    } else {
      assert (a + b)[1..] == a[1..] + b;
      FirstIn(a[1..], b, t);
    }
  }

  lemma PlacedAt(rows: seq<Event>, p: nat)
    requires TimeOrdered(rows) && p < |rows|
    ensures PlacedAtIndex(rows, p) <==>
            (rows[p].line.None? ==> forall i | 0 <= i < p && rows[i].line.Some? :: rows[i].time != rows[p].time)
  {
    var t := rows[p].time;
    var a, b := Streams(rows[..p]), Streams(rows[p..]);
    assert rows == rows[..p] + rows[p..];
    StreamsAppend(rows[..p], rows[p..]);
    forall e
      ensures e in a <==> e in rows[..p] && e.line.Some?
      ensures e in b <==> e in rows[p..] && e.line.Some?
    {
      KindsIn(rows[..p], e);
      KindsIn(rows[p..], e);
    }
    FirstIn(a, b, t);
    assert forall i | 0 <= i < p && rows[i].line.Some? :: rows[i] in a;
  }

  /** The rows come back as they were committed exactly when the stream was committed in line order
      and no stream event ties with a lifecycle event committed after it. */
  lemma UnchangedIff(rows: seq<Event>)
    requires TimeOrdered(rows)
    ensures Merged(rows) == rows <==> LineOrdered(Streams(rows)) && NoTies(rows)
  {
    MergedExact(rows, rows);
    SortOfSorted(Streams(rows));
    forall p | 0 <= p < |rows|
      ensures PlacedAtIndex(rows, p) <==>
              (rows[p].line.None? ==> forall i | 0 <= i < p && rows[i].line.Some? :: rows[i].time != rows[p].time)
    {
      PlacedAt(rows, p);
    }
  }

  // ---------------------------------------------------------------- the merge as its comment has it

  /** Each lifecycle event before the first stream event that is strictly later. */
  function MergeStrict(stream: seq<Event>, life: seq<Event>): seq<Event>
    decreases |stream| + |life|
  {
    if life != [] && (stream == [] || life[0].time < stream[0].time) then
      [life[0]] + MergeStrict(stream, life[1..])
    else if stream != [] then
      [stream[0]] + MergeStrict(stream[1..], life)
    else
      []
  }

  /** No lifecycle event has the time of the stream event that the loop puts it in front of. */
  ghost predicate NoTieAtSplice(stream: seq<Event>, life: seq<Event>) {
    forall i | 0 <= i < |life| ::
      var n := FirstAtOrAfter(stream, life[i].time);
      n < |stream| ==> stream[n].time != life[i].time
  }

  lemma TieTail(stream: seq<Event>, life: seq<Event>)
    requires stream != [] && TimeOrdered(life) && (life == [] || life[0].time > stream[0].time)
    ensures NoTieAtSplice(stream, life) <==> NoTieAtSplice(stream[1..], life)
  {
    forall i | 0 <= i < |life|
      ensures FirstAtOrAfter(stream, life[i].time) == 1 + FirstAtOrAfter(stream[1..], life[i].time)
    {
    }
    if NoTieAtSplice(stream, life) {
      forall i | 0 <= i < |life|
        ensures var n := FirstAtOrAfter(stream[1..], life[i].time); n < |stream| - 1 ==> stream[1..][n].time != life[i].time
      {
        assert FirstAtOrAfter(stream, life[i].time) == 1 + FirstAtOrAfter(stream[1..], life[i].time);
      }
    }
  }

  lemma TieHead(stream: seq<Event>, life: seq<Event>)
    requires life != [] && (stream == [] || life[0].time < stream[0].time)
    ensures NoTieAtSplice(stream, life) <==> NoTieAtSplice(stream, life[1..])
  {
    assert FirstAtOrAfter(stream, life[0].time) == 0;
    assert forall i | 0 < i < |life| :: life[i] == life[1..][i - 1];
  }

  /** The loop's `<=` and the comment's "strictly greater" give the same result if and only if no lifecycle
      event ties with the stream event it is put in front of. */
  lemma {:induction false} CommentHoldsIff(stream: seq<Event>, life: seq<Event>)
    requires AllStreams(stream) && AllLifecycle(life) && TimeOrdered(life)
    ensures MergeStrict(stream, life) == Merge(stream, life) <==> NoTieAtSplice(stream, life)
    decreases |stream| + |life|
  {
    if life != [] && (stream == [] || life[0].time < stream[0].time) {
      CommentHoldsIff(stream, life[1..]);
      TieHead(stream, life);
      SameHead(life[0], MergeStrict(stream, life[1..]), Merge(stream, life[1..]));
    } else if stream != [] && (life == [] || life[0].time > stream[0].time) {
      CommentHoldsIff(stream[1..], life);
      TieTail(stream, life);
      SameHead(stream[0], MergeStrict(stream[1..], life), Merge(stream[1..], life));
    } else if stream != [] {
      assert Merge(stream, life)[0] == life[0] && MergeStrict(stream, life)[0] == stream[0];
      assert FirstAtOrAfter(stream, life[0].time) == 0;
    }
  }

  lemma SameHead(e: Event, a: seq<Event>, b: seq<Event>)
    ensures [e] + a == [e] + b <==> a == b
  {
    assert ([e] + a)[1..] == a && ([e] + b)[1..] == b;
  }

  /** For the reader's own stream and lifecycle rows. */
  lemma ReaderCommentIff(rows: seq<Event>)
    requires TimeOrdered(rows)
    ensures MergeStrict(SortByLine(Streams(rows)), Lifecycle(rows)) == Merged(rows) <==>
            NoTieAtSplice(SortByLine(Streams(rows)), Lifecycle(rows))
  {
    LifecycleTimeOrdered(rows);
    CommentHoldsIff(SortByLine(Streams(rows)), Lifecycle(rows));
  }

  /** A tie: the loop puts the lifecycle event first, the comment would put it last. */
  lemma TiedInput()
    ensures
      var line, end := Event(0, 5, Some(1)), Event(1, 5, None);
      TimeOrdered([line, end]) && Merged([line, end]) == [end, line]
      && MergeStrict(SortByLine(Streams([line, end])), Lifecycle([line, end])) == [line, end]
  {
    var line, end := Event(0, 5, Some(1)), Event(1, 5, None);
    var rows := [line, end];
    assert rows[1..] == [end] && rows[1..][1..] == [];
    assert [end][1..] == [] && Streams([end][1..]) == [] && Lifecycle([end][1..]) == [];
    assert Streams([end]) == [] && Lifecycle([end]) == [end];
    assert Streams(rows) == [line] && Lifecycle(rows) == [end];
    assert [line][1..] == [] && [end][1..] == [] && SortByLine([line][1..]) == [];
    assert SortByLine([line]) == [line];
    assert Merge([line][1..], []) == [] && MergeStrict([], [end][1..]) == [];
    assert Merge([line], []) == [line] && MergeStrict([line][1..], [end]) == [end];
  }

  // ---------------------------------------------------------------- the reader

  lemma TakeLifecycle(stream: seq<Event>, life: seq<Event>, li: nat)
    requires li < |life| && (stream == [] || life[li].time <= stream[0].time)
    ensures Merge(stream, life[li..]) == [life[li]] + Merge(stream, life[li + 1..])
  {
    assert life[li..][1..] == life[li + 1..];
  }

  lemma TakeStream(stream: seq<Event>, i: nat, life: seq<Event>)
    requires i < |stream| && (life == [] || life[0].time > stream[i].time)
    ensures Merge(stream[i..], life) == [stream[i]] + Merge(stream[i + 1..], life)
  {
    assert stream[i..][1..] == stream[i + 1..];
  }

  /** `rows` is the table's answer, ordered by timestamp. */
  method ListEvents(rows: seq<Event>) returns (result: seq<Event>)
    requires TimeOrdered(rows)
    ensures result == Merged(rows)
  {
    hide Merge, Streams, Lifecycle, SortByLine, Insert;
    var stream := SortByLine(Streams(rows));
    var lifecycle := Lifecycle(rows);
    result := [];
    var li := 0;
    assert stream[0..] == stream && lifecycle[0..] == lifecycle;
    assert result + Merge(stream, lifecycle) == Merge(stream, lifecycle);
    for i := 0 to |stream|
      invariant li <= |lifecycle|
      invariant result + Merge(stream[i..], lifecycle[li..]) == Merge(stream, lifecycle)
    {
      while li < |lifecycle| && lifecycle[li].time <= stream[i].time
        invariant li <= |lifecycle|
        invariant result + Merge(stream[i..], lifecycle[li..]) == Merge(stream, lifecycle)
      {
        TakeLifecycle(stream[i..], lifecycle, li);
        result := result + [lifecycle[li]];
        li := li + 1;
      }
      TakeStream(stream, i, lifecycle[li..]);
      result := result + [stream[i]];
    }
    assert stream[|stream|..] == [];
    while li < |lifecycle|
      invariant li <= |lifecycle|
      invariant result + Merge([], lifecycle[li..]) == Merge(stream, lifecycle)
    {
      TakeLifecycle([], lifecycle, li);
      result := result + [lifecycle[li]];
      li := li + 1;
    }
    assert lifecycle[li..] == [];
    NothingLeft();
  }

  lemma NothingLeft()
    ensures Merge([], []) == []
  {
  }
}

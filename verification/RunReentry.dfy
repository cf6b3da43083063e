/**
 The retry budget is shared: what counts against a stage's `maxRetries` is every row of it, re-entries through
 rework routes included. Exactly how far that holds when an operator's seed row comes at an odd moment.
 */
module RunReentry {
  import opened Wrappers
  import opened PipelineRuns
  import opened RunMachine
  import opened RunSlots
  import opened RunInvariant
  import opened RunBudget
  import opened RunAttempts
  import opened RunTraces
  import opened AttemptTally

  // ---------------------------------------------------------------- what never changes in a row

  function Key(row: StageRun): StageRun {
    row.(status := RowPending, started := false)
  }

  function Keys(rows: seq<StageRun>): (k: seq<StageRun>)
    ensures |k| == |rows|
  {
    seq(|rows|, i requires 0 <= i < |rows| => Key(rows[i]))
  }

  predicate SameRows(a: seq<StageRun>, b: seq<StageRun>) {
    SameKeys(a, b) && forall i | 0 <= i < |a| :: a[i].cause == b[i].cause
  }

  lemma SameRowsKeys(a: seq<StageRun>, b: seq<StageRun>)
    requires SameRows(a, b)
    ensures Keys(a) == Keys(b)
  {
  }

  lemma KeysAppend(rows: seq<StageRun>, x: StageRun)
    ensures Keys(rows + [x]) == Keys(rows) + [Key(x)]
  {
  }

  lemma KeysCount(rows: seq<StageRun>, r: RunId, s: StageId)
    ensures MaxAttempt(Keys(rows), r, s) == MaxAttempt(rows, r, s) && Count(Keys(rows), r, s) == Count(rows, r, s)
    ensures forall a :: AttemptExists(Keys(rows), r, s, a) <==> AttemptExists(rows, r, s, a)
  {
    SameKeysMax(rows, Keys(rows), r, s);
    SameKeysCount(rows, Keys(rows), r, s);
    assert forall i | 0 <= i < |rows| :: Keys(rows)[i] == Key(rows[i]);
  }

  // ---------------------------------------------------------------- the invariant

  ghost predicate NearRow(k: seq<StageRun>, i: nat) {
    i < |k| ==> Near(k, k[i].run, k[i].stage, k[i].attempt)
  }

  /** What a driving activation knows of its stage. */
  ghost predicate NearPc(k: seq<StageRun>, pc: Pc) {
    && (RowOf(pc).Some? ==> NearRow(k, RowOf(pc).value))
    && (pc.ReadMax? && pc.cause.Retry? ==> Near(k, pc.r, pc.s, pc.cause.failed))
    && (pc.Insert? ==> JustRead(k, pc.r, pc.s, pc.n) && (pc.cause.Retry? ==> Near(k, pc.r, pc.s, pc.cause.failed)))
  }

  /** Unless it came late, a seed row is the first row of its run. */
  ghost predicate SeedFirst(k: seq<StageRun>, late: set<RunId>) {
    forall l, j | 0 <= l < j < |k| && k[j].cause == Seed && k[j].run !in late :: k[l].run != k[j].run
  }

  ghost predicate SharedInv(s: State) {
    var k := Keys(s.db.rows);
    && InOrder(k) && SeedFirst(k, s.late)
    && (forall r :: r in s.seeds ==> NoSeed(k, r))
    && (forall t :: t in s.tasks && Owned(s.tasks[t].pc).Some? ==> NearPc(k, s.tasks[t].pc))
    && (forall i | 0 <= i < |s.db.rows| && (s.db.rows[i].status == RowRunning || i in s.stale) :: NearRow(k, i))
  }

  lemma SameKeep(s: State, s': State)
    requires SharedInv(s) && Keys(s'.db.rows) == Keys(s.db.rows) && s'.late == s.late
    requires forall r | r in s'.seeds :: NoSeed(Keys(s.db.rows), r)
    requires forall i | 0 <= i < |s.db.rows| && (s'.db.rows[i].status == RowRunning || i in s'.stale) :: NearRow(Keys(s.db.rows), i)
    requires forall t | t in s'.tasks && Owned(s'.tasks[t].pc).Some? :: NearPc(Keys(s.db.rows), s'.tasks[t].pc)
    ensures SharedInv(s')
  {
    hide NearRow, NearPc, NoSeed, InOrder, SeedFirst;
    assert |s'.db.rows| == |Keys(s'.db.rows)| == |s.db.rows|;
  }

  // ---------------------------------------------------------------- one activation

  /** A step of an activation that appends nothing. */
  ghost predicate SharedStep(db: Db, db': Db, m: Move) {
    && Keys(db'.rows) == Keys(db.rows)
    && (m.At? && Owned(m.pc).Some? ==> NearPc(Keys(db.rows), m.pc))
    && (forall i | 0 <= i < |db.rows| && db'.rows[i].status == RowRunning :: db.rows[i].status == RowRunning || NearRow(Keys(db.rows), i))
  }

  /** The only row of a run is the latest of its stage. */
  lemma OnlyRowNear(rows: seq<StageRun>, i: nat)
    requires i < |rows| && InOrder(Keys(rows)) && OnlySeeds(rows, rows[i].run) && 1 <= rows[i].attempt
    ensures NearRow(Keys(rows), i)
  {
    var k := Keys(rows);
    forall j | 0 <= j < |rows| && rows[j].run == rows[i].run
      ensures j == i
    {
      InOrderOneSeed(k);
      assert k[i].cause == Seed && k[j].cause == Seed && k[i].run == k[j].run;
    }
    MaxAttemptBounds(k, k[i].run, k[i].stage);
  }

  lemma HandleNear(c: Config, db: Db, lockFree: bool, pc: Pc)
    requires InHandle(pc) && DataOk(c, db) && PcOk(c, db, pc) && InOrder(Keys(db.rows))
    ensures var (db', m) := Handle(c, db, lockFree, pc); SharedStep(db, db', m)
  {
    hide RunningCount, MaxAttempt, InOrder;
    if pc.GetStageRuns? && FirstPending(db.rows, pc.r).Some? {
      var i := FirstPending(db.rows, pc.r).value;
      assert RowOk(c, db, db.rows[i]);
      OnlyRowNear(db.rows, i);
    }
    hide NearRow, DataOk, OnlySeeds;
  }

  lemma LaunchNear(c: Config, db: Db, pc: Pc, k: Choice)
    requires InLaunch(pc) && !pc.Insert? && NearPc(Keys(db.rows), pc) && PcOk(c, db, pc)
    requires pc.ReadMax? ==> JustRead(Keys(db.rows), pc.r, pc.s, MaxAttempt(db.rows, pc.r, pc.s))
    ensures var (db', m) := Launch(c, db, pc, k); SharedStep(db, db', m)
  {
    var (db', m) := Launch(c, db, pc, k);
    hide RetryBelow, CauseOk, MaxAttempt, OnlySeeds, Near, JustRead;
    assert SameRows(db.rows, db'.rows);
    SameRowsKeys(db.rows, db'.rows);
    hide Keys, SameRows;
  }

  lemma SettleNear(c: Config, db: Db, pc: Pc, k: Choice)
    requires Handled(pc).Some? && !InHandle(pc) && !InLaunch(pc) && PcOk(c, db, pc)
    requires Owned(pc).Some? ==> NearPc(Keys(db.rows), pc)
    ensures var (db', m) := Settle(c, db, pc, k); SharedStep(db, db', m)
  {
    var (db', m) := Settle(c, db, pc, k);
    hide RetryBelow, CauseOk, MaxAttempt, RouteTo, OnlySeeds, Near, JustRead;
    assert SameRows(db.rows, db'.rows);
    SameRowsKeys(db.rows, db'.rows);
    assert forall i | 0 <= i < |db.rows| :: Keys(db.rows)[i] == Key(db.rows[i]);
    hide Keys, SameRows;
  }

  lemma ResumeNear(c: Config, db: Db, lockFree: bool, pc: Pc, k: Choice)
    requires Handled(pc).Some? && !pc.Insert? && DataOk(c, db) && PcOk(c, db, pc) && InOrder(Keys(db.rows))
    requires Owned(pc).Some? ==> NearPc(Keys(db.rows), pc)
    ensures var (db', m) := Resume(c, db, lockFree, pc, k); SharedStep(db, db', m)
  {
    if pc.ReadMax? {
      KeysCount(db.rows, pc.r, pc.s);
    }
    assert pc.ReadMax? ==> JustRead(Keys(db.rows), pc.r, pc.s, MaxAttempt(db.rows, pc.r, pc.s));
    hide Handle, Launch, Settle, SharedStep, DataOk, InOrder, JustRead, MaxAttempt;
    if InHandle(pc) {
      HandleNear(c, db, lockFree, pc);
    } else if InLaunch(pc) {
      LaunchNear(c, db, pc, k);
    } else {
      SettleNear(c, db, pc, k);
    }
  }

  // ---------------------------------------------------------------- the machine

  lemma ActNear(c: Config, s: State, t: nat, k: Choice)
    requires RunInv(c, s) && SharedInv(s) && t in s.tasks && Handled(s.tasks[t].pc).Some? && !s.tasks[t].pc.Insert?
    ensures var (db', m) := Resume(c, s.db, s.lock.None?, s.tasks[t].pc, k); SharedInv(Apply(s, t, db', m))
  {
    var pc := s.tasks[t].pc;
    var (db', m) := Resume(c, s.db, s.lock.None?, pc, k);
    assert TaskOk(c, s.db, s.inFlight, s.tasks[t]);
    hide Resume, RunInv, DataOk, PcOk, OnlyOwnRow, NearPc, NearRow, InOrder, SeedFirst;
    ResumeNear(c, s.db, s.lock.None?, pc, k);
    StayNear(c, s.db, s.lock.None?, pc, k);
    hide NoSeed, Keys;
    SameKeep(s, Apply(s, t, db', m));
  }

  lemma StayNear(c: Config, db: Db, lockFree: bool, pc: Pc, k: Choice)
    ensures var (db', m) := Resume(c, db, lockFree, pc, k); m.Stay? ==> db' == db
  {
    hide MaxAttempt, RunningCount, RouteTo;
  }

  lemma InsertShape(c: Config, s: State, t: nat, k: Choice)
    requires t in s.tasks && s.tasks[t].pc.Insert?
    ensures var s', pc := ActStep(c, s, t, k), s.tasks[t].pc;
            && s'.db.rows == s.db.rows + [StageRun(pc.r, pc.s, pc.n + 1, RowPending, pc.cause, false)]
            && s'.db.runs == s.db.runs && s'.stale == s.stale && s'.late == s.late
            && s'.tasks == s.tasks[t := s.tasks[t].(pc := Gate(pc.r, |s.db.rows|))]
  {
  }

  /** The inserting activation's run has no running row and none that recovery has yet to visit. */
  lemma InsertAlone(c: Config, s: State, t: nat)
    requires RunInv(c, s) && t in s.tasks && s.tasks[t].pc.Insert?
    ensures var r := s.tasks[t].pc.r;
            && !IsPending(s.db, r) && |s.db.rows| !in s.stale
            && forall i | 0 <= i < |s.db.rows| && s.db.rows[i].run == r :: s.db.rows[i].status != RowRunning && i !in s.stale
  {
    assert TaskOk(c, s.db, s.inFlight, s.tasks[t]) && Undriven(s.db, s.stale, s.tasks[t].pc);
    assert forall i :: i in s.stale ==> StaleOk(c, s.db, s.stale, i) && i < |s.db.rows|;
    hide RunInv, DataOk, StaleOk;
  }

  predicate RowKnown(rows: seq<StageRun>, pc: Pc) {
    RowOf(pc).Some? ==> RowOf(pc).value < |rows| && Handled(pc) == Some(rows[RowOf(pc).value].run)
  }

  lemma OthersKnown(c: Config, s: State, t: nat)
    requires RunInv(c, s) && t in s.tasks && Owned(s.tasks[t].pc).Some?
    ensures forall q | q in s.tasks && Owned(s.tasks[q].pc).Some? ::
              RowKnown(s.db.rows, s.tasks[q].pc) && (q != t ==> s.tasks[q].pc.r != s.tasks[t].pc.r)
  {
    forall q | q in s.tasks && Owned(s.tasks[q].pc).Some?
      ensures RowKnown(s.db.rows, s.tasks[q].pc) && (q != t ==> s.tasks[q].pc.r != s.tasks[t].pc.r)
    {
      assert TaskOk(c, s.db, s.inFlight, s.tasks[q]);
      assert q != t ==> Apart(s.tasks[t], s.tasks[q]);
    }
  }

  lemma InsertNear(c: Config, s: State, t: nat, k: Choice)
    requires RunInv(c, s) && SharedInv(s) && t in s.tasks && s.tasks[t].pc.Insert?
    ensures SharedInv(ActStep(c, s, t, k))
  {
    var s', pc := ActStep(c, s, t, k), s.tasks[t].pc;
    var row := StageRun(pc.r, pc.s, pc.n + 1, RowPending, pc.cause, false);
    assert TaskOk(c, s.db, s.inFlight, s.tasks[t]);
    assert row.cause != Seed && Key(row) == row;
    InsertShape(c, s, t, k);
    InsertAlone(c, s, t);
    OthersKnown(c, s, t);
    assert NearPc(Keys(s.db.rows), pc);
    KeysAppend(s.db.rows, row);
    hide ActStep, RunInv, PcOk, OnlyOwnRow, Keys, InOrder, Near, JustRead, SeedFirst, NoSeed;
    OwnOrder(Keys(s.db.rows), row);
    AppendKeep(s, s', t, row);
  }

  /** The executor has inserted a row of its run. */
  lemma AppendKeep(s: State, s': State, t: nat, row: StageRun)
    requires SharedInv(s) && row.cause != Seed && row.status == RowPending
    requires s'.db.rows == s.db.rows + [row] && Keys(s'.db.rows) == Keys(s.db.rows) + [row]
    requires s'.stale == s.stale && s'.late == s.late && s'.seeds == s.seeds && |s.db.rows| !in s.stale
    requires InOrder(Keys(s'.db.rows)) && Near(Keys(s'.db.rows), row.run, row.stage, row.attempt)
    requires t in s.tasks && s'.tasks == s.tasks[t := s.tasks[t].(pc := Gate(row.run, |s.db.rows|))]
    requires forall i | 0 <= i < |s.db.rows| && s.db.rows[i].run == row.run :: s.db.rows[i].status != RowRunning && i !in s.stale
    requires forall q | q in s.tasks && q != t && Owned(s.tasks[q].pc).Some? :: RowKnown(s.db.rows, s.tasks[q].pc) && s.tasks[q].pc.r != row.run
    ensures SharedInv(s')
  {
    var k, k' := Keys(s.db.rows), Keys(s'.db.rows);
    assert forall i | 0 <= i < |k| :: k'[i] == k[i] && k[i].run == s.db.rows[i].run;
    assert k'[|k|] == row;
    forall q | q in s'.tasks && Owned(s'.tasks[q].pc).Some?
      ensures NearPc(k', s'.tasks[q].pc)
    {
      if q != t {
        OtherNear(k, row, s.tasks[q].pc);
      }
    }
    forall i | 0 <= i < |s'.db.rows| && (s'.db.rows[i].status == RowRunning || i in s'.stale)
      ensures NearRow(k', i)
    {
      AppendElsewhere(k, row, k[i].run, k[i].stage);
    }
    hide Keys, InOrder, Near, NearRow, NearPc;
  }

  lemma OtherNear(k: seq<StageRun>, row: StageRun, pc: Pc)
    requires NearPc(k, pc) && Handled(pc).Some? && pc.r != row.run && RowKnown(k, pc)
    ensures NearPc(k + [row], pc)
  {
    if RowOf(pc).Some? {
      AppendElsewhere(k, row, pc.r, k[RowOf(pc).value].stage);
    }
    if pc.ReadMax? || pc.Insert? {
      AppendElsewhere(k, row, pc.r, pc.s);
    }
    hide Near, JustRead;
  }

  lemma ItemNear(c: Config, s: State, t: nat, k: Choice)
    requires SharedInv(s) && t in s.tasks && Handled(s.tasks[t].pc).None?
    ensures SharedInv(NextItem(c, s, t, k))
  {
    ItemShape(c, s, t, k);
    var s' := NextItem(c, s, t, k);
    assert SameRows(s.db.rows, s'.db.rows);
    SameRowsKeys(s.db.rows, s'.db.rows);
    hide NextItem, InOrder, Near, SeedFirst, NoSeed, Keys;
    SameKeep(s, s');
  }

  // the seed row

  lemma SeedNumber(s: State, r: RunId)
    requires NotAhead(s) && r in s.seeds && s.seeds[r].SeedInsert?
    ensures s.seeds[r].n <= MaxAttempt(Keys(s.db.rows), r, s.seeds[r].s)
  {
    KeysCount(s.db.rows, r, s.seeds[r].s);
  }

  lemma SeedArrives(c: Config, s: State, r: RunId)
    requires RunInv(c, s) && NotAhead(s) && DenseInv(s) && SharedInv(s) && r in s.seeds && s.seeds[r].SeedInsert?
    ensures SharedInv(Next(c, s, TriggerInsert(r)))
  {
    var s' := Next(c, s, TriggerInsert(r));
    var row := StageRun(r, s.seeds[r].s, s.seeds[r].n + 1, RowPending, Seed, false);
    SeedShape(c, s, r);
    SeedNumber(s, r);
    KeysAppend(s.db.rows, row);
    assert Key(row) == row;
    assert SeedDense(s.db, r, s.seeds[r]);
    assert forall i :: i in s.stale ==> StaleOk(c, s.db, s.stale, i) && i < |s.db.rows|;
    SeedFirstKept(s, r, row);
    hide Next, DenseInv, NotAhead, Near, JustRead, SeedFirst, StaleOk, SeedDense, MaxAttempt, Keys;
    SeedOrder(Keys(s.db.rows), row);
    SeedTasks(c, s, r, row);
    SeedRows(c, s, r, row);
    hide RunInv, InOrder, NearPc, NearRow;
    NoSeedKept(s, r, row);
    SeedJoins(s, s', r, row);
  }

  lemma SeedJoins(s: State, s': State, r: RunId, row: StageRun)
    requires s'.db.rows == s.db.rows + [row] && s'.tasks == s.tasks && s'.stale == s.stale && row.status == RowPending
    requires InOrder(Keys(s'.db.rows)) && SeedFirst(Keys(s'.db.rows), s'.late)
    requires forall q | q in s'.seeds :: NoSeed(Keys(s'.db.rows), q)
    requires forall t | t in s.tasks && Owned(s.tasks[t].pc).Some? :: NearPc(Keys(s'.db.rows), s.tasks[t].pc)
    requires |s.db.rows| !in s.stale
    requires forall i | 0 <= i < |s.db.rows| && (s.db.rows[i].status == RowRunning || i in s.stale) :: NearRow(Keys(s'.db.rows), i)
    ensures SharedInv(s')
  {
    hide InOrder, SeedFirst, NoSeed, NearPc, NearRow, Keys;
    assert forall i | 0 <= i < |s.db.rows| :: s'.db.rows[i] == s.db.rows[i];
    assert s'.db.rows[|s.db.rows|] == row;
  }

  lemma SeedFirstKept(s: State, r: RunId, row: StageRun)
    requires SharedInv(s) && row.run == r && (IsPending(s.db, r) ==> forall i | 0 <= i < |s.db.rows| :: s.db.rows[i].run != r)
    ensures SeedFirst(Keys(s.db.rows) + [row], if IsPending(s.db, r) then s.late else s.late + {r})
  {
    var k, k' := Keys(s.db.rows), Keys(s.db.rows) + [row];
    assert forall i | 0 <= i < |k| :: k'[i] == k[i] && k[i].run == s.db.rows[i].run;
    assert k'[|k|] == row;
    hide InOrder, NearRow, NearPc, NoSeed;
  }

  lemma NoSeedKept(s: State, r: RunId, row: StageRun)
    requires SharedInv(s) && row.run == r
    ensures forall q | q in s.seeds && q != r :: NoSeed(Keys(s.db.rows) + [row], q)
  {
    hide InOrder, NearRow, NearPc, SeedFirst;
  }

  lemma SeedTasks(c: Config, s: State, r: RunId, row: StageRun)
    requires RunInv(c, s) && SharedInv(s) && r in s.seeds && row.cause == Seed && row.run == r
    requires 1 <= row.attempt <= MaxAttempt(Keys(s.db.rows), r, row.stage) + 1
    ensures forall t | t in s.tasks && Owned(s.tasks[t].pc).Some? :: NearPc(Keys(s.db.rows) + [row], s.tasks[t].pc)
  {
    forall t | t in s.tasks && Owned(s.tasks[t].pc).Some?
      ensures NearPc(Keys(s.db.rows) + [row], s.tasks[t].pc)
    {
      assert TaskOk(c, s.db, s.inFlight, s.tasks[t]);
      PcFacts(c, s.db, s.tasks[t].pc);
      assert NearPc(Keys(s.db.rows), s.tasks[t].pc) && NoSeed(Keys(s.db.rows), r) && InOrder(Keys(s.db.rows));
      hide RunInv, SharedInv, NearPc, NoSeed, InOrder, Keys, PcOk, OnlyOwnRow;
      SeedTask(Keys(s.db.rows), row, s.tasks[t].pc);
    }
  }

  lemma PcFacts(c: Config, db: Db, pc: Pc)
    requires PcOk(c, db, pc)
    ensures RowKnown(Keys(db.rows), pc)
    ensures (pc.ReadMax? || pc.Insert?) && pc.cause.Retry? ==> AttemptExists(Keys(db.rows), pc.r, pc.s, pc.cause.failed)
  {
    if pc.ReadMax? || pc.Insert? {
      KeysCount(db.rows, pc.r, pc.s);
    }
    hide RetryBelow, MaxAttempt, OnlySeeds, InsertFits;
  }

  lemma SeedTask(k: seq<StageRun>, row: StageRun, pc: Pc)
    requires InOrder(k) && NoSeed(k, row.run) && row.cause == Seed && 1 <= row.attempt <= MaxAttempt(k, row.run, row.stage) + 1
    requires Handled(pc).Some? && NearPc(k, pc) && RowKnown(k, pc)
    requires (pc.ReadMax? || pc.Insert?) && pc.cause.Retry? ==> AttemptExists(k, pc.r, pc.s, pc.cause.failed)
    ensures NearPc(k + [row], pc)
  {
    hide InOrder, NoSeed, NearPc, MaxAttempt;
    if pc.r != row.run {
      OtherNear(k, row, pc);
    } else {
      SeedOwnTask(k, row, pc);
    }
  }

  lemma SeedOwnTask(k: seq<StageRun>, row: StageRun, pc: Pc)
    requires InOrder(k) && NoSeed(k, row.run) && row.cause == Seed && 1 <= row.attempt <= MaxAttempt(k, row.run, row.stage) + 1
    requires Handled(pc) == Some(row.run) && NearPc(k, pc) && (RowOf(pc).Some? ==> RowOf(pc).value < |k|)
    requires (pc.ReadMax? || pc.Insert?) && pc.cause.Retry? ==> AttemptExists(k, row.run, pc.s, pc.cause.failed)
    ensures NearPc(k + [row], pc)
  {
    hide Near, JustRead, InOrder, NoSeed, MaxAttempt, AttemptExists;
    if RowOf(pc).Some? {
      SeedNearRow(k, row, RowOf(pc).value);
    } else if pc.ReadMax? || pc.Insert? {
      if pc.Insert? {
        SeedNear(k, row, pc.s, pc.n);
      }
      if pc.cause.Retry? {
        SeedNear(k, row, pc.s, pc.cause.failed);
      }
    }
  }

  lemma SeedNearRow(k: seq<StageRun>, row: StageRun, i: nat)
    requires InOrder(k) && row.cause == Seed && NoSeed(k, row.run) && i < |k| && NearRow(k, i)
    requires 1 <= row.attempt <= MaxAttempt(k, row.run, row.stage) + 1
    ensures NearRow(k + [row], i)
  {
    hide InOrder, NoSeed, MaxAttempt;
    assert (k + [row])[i] == k[i];
    if k[i].run == row.run {
      assert AttemptExists(k, k[i].run, k[i].stage, k[i].attempt);
      SeedNear(k, row, k[i].stage, k[i].attempt);
    } else {
      AppendElsewhere(k, row, k[i].run, k[i].stage);
    }
  }

  lemma SeedRows(c: Config, s: State, r: RunId, row: StageRun)
    requires SharedInv(s) && r in s.seeds && row.cause == Seed && row.run == r
    requires 1 <= row.attempt <= MaxAttempt(Keys(s.db.rows), r, row.stage) + 1
    ensures forall i | 0 <= i < |s.db.rows| && (s.db.rows[i].status == RowRunning || i in s.stale) :: NearRow(Keys(s.db.rows) + [row], i)
  {
    forall i | 0 <= i < |s.db.rows| && (s.db.rows[i].status == RowRunning || i in s.stale)
      ensures NearRow(Keys(s.db.rows) + [row], i)
    {
      hide Near, InOrder, NoSeed, MaxAttempt;
      SeedNearRow(Keys(s.db.rows), row, i);
    }
  }

  // everything else

  ghost predicate OutsideOnly(s: State, s': State) {
    && SameRows(s.db.rows, s'.db.rows) && s'.late == s.late
    && (forall i | 0 <= i < |s.db.rows| && s'.db.rows[i].status == RowRunning :: s.db.rows[i].status == RowRunning)
    && (forall i | i in s'.stale && i < |s.db.rows| :: i in s.stale || s.db.rows[i].status == RowRunning)
    && (forall r | r in s'.seeds :: r in s.seeds || r !in s.db.runs)
    && (forall t | t in s'.tasks && Owned(s'.tasks[t].pc).Some? :: t in s.tasks && s'.tasks[t] == s.tasks[t])
  }

  lemma OutsideRows(c: Config, s: State, e: Event)
    requires e.NewRun? || e.Trigger? || e.TriggerRead? || IsCancel(e) || e.Deliver? || e.StartDrain? || e.Crash? || e.Boot? || e.Throw?
    ensures OutsideOnly(s, Next(c, s, e))
  {
    hide ActStep, MaxAttempt;
    if e.Deliver? || e.StartDrain? || e.Crash? || e.Boot? || e.Throw? {
      SpawnRows(c, s, e);
    }
  }

  lemma SpawnRows(c: Config, s: State, e: Event)
    requires e.Deliver? || e.StartDrain? || e.Crash? || e.Boot? || e.Throw?
    ensures OutsideOnly(s, Next(c, s, e))
  {
    hide ActStep;
    assert Next(c, s, e).db == s.db;
  }

  lemma OutsideNear(c: Config, s: State, e: Event)
    requires RunInv(c, s) && SharedInv(s)
    requires e.NewRun? || e.Trigger? || e.TriggerRead? || IsCancel(e) || e.Deliver? || e.StartDrain? || e.Crash? || e.Boot? || e.Throw?
    ensures SharedInv(Next(c, s, e))
  {
    var s' := Next(c, s, e);
    assert forall i | 0 <= i < |s.db.rows| :: RowOk(c, s.db, s.db.rows[i]) && s.db.rows[i].run in s.db.runs;
    OutsideRows(c, s, e);
    SameRowsKeys(s.db.rows, s'.db.rows);
    assert forall i | 0 <= i < |s.db.rows| :: Keys(s.db.rows)[i].run == s.db.rows[i].run;
    hide RunInv, RowOk, Near, JustRead, InOrder, SeedFirst, Next, NearPc, NearRow, Keys;
    SameKeep(s, s');
  }

  lemma SharedNext(c: Config, s: State, e: Event)
    requires RunInv(c, s) && DenseInv(s) && NotAhead(s) && SharedInv(s)
    ensures SharedInv(Next(c, s, e))
  {
    hide RunInv, DenseInv, NotAhead, SharedInv, Resume, NextItem, Apply, Unwind, AddRow;
    match e
    case Act(t, k) =>
      if t in s.tasks {
        if Handled(s.tasks[t].pc).None? {
          ItemNear(c, s, t, k);
        } else if s.tasks[t].pc.Insert? {
          InsertNear(c, s, t, k);
        } else {
          ActNear(c, s, t, k);
        }
      }
    case TriggerInsert(r) => if r in s.seeds && s.seeds[r].SeedInsert? { SeedArrives(c, s, r); }
    case _ => OutsideNear(c, s, e);
  }

  lemma {:induction false} SharedAlways(c: Config, s: State, events: seq<Event>)
    requires RunInv(c, s) && DenseInv(s) && NotAhead(s) && SharedInv(s)
    ensures RunInv(c, Run(c, s, events)) && DenseInv(Run(c, s, events)) && SharedInv(Run(c, s, events))
    decreases |events|
  {
    if events != [] {
      hide RunInv, DenseInv, NotAhead, SharedInv, Next;
      InvStep(c, s, events[0]);
      DenseStep(c, s, events[0]);
      NotAheadStep(c, s, events[0]);
      SharedNext(c, s, events[0]);
      SharedAlways(c, Next(c, s, events[0]), events[1..]);
    }
  }

  // ---------------------------------------------------------------- the budget

  /** A row of the stage made by a relaunch answers to the attempt `failed`; between or before, the run's seed
      row has come out of turn: it repeats a number that the stage has so far, or came after the failed row. */
  ghost predicate OutOfTurn(rows: seq<StageRun>, i: nat)
    requires i < |rows| && rows[i].cause.Retry?
  {
    SeedBetween(rows[..i], rows[i].run, rows[i].stage, rows[i].cause.failed)
  }

  lemma SameBetween(a: seq<StageRun>, b: seq<StageRun>, r: RunId, s: StageId, f: nat)
    requires SameRows(a, b)
    ensures SeedBetween(a, r, s, f) <==> SeedBetween(b, r, s, f)
  {
    forall j | 0 <= j < |a|
      ensures IsSeed(a[j], r, s) == IsSeed(b[j], r, s) && Repeated(a, j) == Repeated(b, j) && Preceded(a, j, f) == Preceded(b, j, f)
    {
    }
  }

  lemma RetryCount(rows: seq<StageRun>, i: nat)
    requires InOrder(Keys(rows)) && i < |rows| && rows[i].cause.Retry?
    ensures Count(rows[..i], rows[i].run, rows[i].stage) == rows[i].cause.failed + if OutOfTurn(rows, i) then 1 else 0
  {
    var k := Keys(rows);
    assert RetryFits(k, i);
    assert k[..i] == Keys(rows[..i]) && k[i] == Key(rows[i]);
    KeysCount(rows[..i], rows[i].run, rows[i].stage);
    SameBetween(rows[..i], k[..i], rows[i].run, rows[i].stage, rows[i].cause.failed);
  }

  /** For every run, late or not: a relaunch after a failure finds as many rows of its stage as the number that
      failed, or one more, and one more exactly when the run's seed row came out of turn. So the stage has at
      most `maxRetries` + 1 rows by then, entries through rework routes included, and the relaunch is beyond
      the budget if and only if the last attempt of the budget failed and the seed row came out of turn. */
  lemma SharedBudgetIff(c: Config, s: State, events: seq<Event>, i: nat)
    requires Init(c, s) && (forall r :: Dense(s.db.rows, r)) && SharedInv(s)
    requires var rows := Run(c, s, events).db.rows; i < |rows| && rows[i].cause.Retry?
    ensures var rows := Run(c, s, events).db.rows;
            var row := rows[i];
            var before := Count(rows[..i], row.run, row.stage);
            && before == row.cause.failed + (if OutOfTurn(rows, i) then 1 else 0)
            && before <= MaxRetries(c, row.stage) + 1
            && (before > MaxRetries(c, row.stage) <==> row.cause.failed == MaxRetries(c, row.stage) && OutOfTurn(rows, i))
  {
    InitInv(c, s);
    SharedAlways(c, s, events);
    var s' := Run(c, s, events);
    assert RowOk(c, s'.db, s'.db.rows[i]);
    hide RunInv, DenseInv, NearPc, NearRow;
    RetryCount(s'.db.rows, i);
  }

  lemma InTurn(s: State, i: nat)
    requires SharedInv(s) && i < |s.db.rows| && s.db.rows[i].cause.Retry?
    requires s.db.rows[i].run !in s.late && Dense(s.db.rows, s.db.rows[i].run)
    ensures !OutOfTurn(s.db.rows, i)
  {
    var rows, k := s.db.rows, Keys(s.db.rows);
    var r, stage := rows[i].run, rows[i].stage;
    DenseDistinct(rows, r);
    assert SeedFirst(k, s.late) && forall j | 0 <= j < |rows| :: k[j].run == rows[j].run && k[j].cause == rows[j].cause;
    forall j | 0 <= j < i && IsSeed(rows[j], r, stage)
      ensures !Repeated(rows[..i], j) && !Preceded(rows[..i], j, rows[i].cause.failed)
    {
      assert forall l | 0 <= l < i :: rows[..i][l] == rows[l];
    }
  }

  /** In particular, a row relaunched after a failure is among the first `maxRetries` + 1 rows of its stage,
      counting every row before it, in every run whose seed row did not come late. The starting table may be any
      in which this holds already, the empty one for instance. */
  lemma SharedBudget(c: Config, s: State, events: seq<Event>, i: nat)
    requires Init(c, s) && (forall r :: Dense(s.db.rows, r)) && SharedInv(s)
    requires var s' := Run(c, s, events);
             i < |s'.db.rows| && s'.db.rows[i].cause.Retry? && s'.db.rows[i].run !in s'.late
    ensures var rows := Run(c, s, events).db.rows;
            var row := rows[i];
            && row.cause.failed == Count(rows[..i], row.run, row.stage)
            && Count(rows[..i], row.run, row.stage) <= MaxRetries(c, row.stage)
  {
    InitInv(c, s);
    SharedBudgetIff(c, s, events, i);
    SharedAlways(c, s, events);
    var s' := Run(c, s, events);
    assert RowOk(c, s'.db, s'.db.rows[i]);
    assert Dense(s'.db.rows, s'.db.rows[i].run);
    InTurn(s', i);
  }

  lemma EmptyInOrder()
    ensures SharedInv(EMPTY)
  {
    assert Keys([]) == [];
  }

  /** For a run whose seed row came late the shared budget can be overspent: with one retry allowed, a
      failure is retried after the stage already has two rows. */
  lemma LateSeedOverspends()
    ensures SharedInv(EMPTY)
    ensures exists events :: var rows := Run(OneStage(Some(1)), EMPTY, events).db.rows;
              && |rows| == 3 && rows[2].cause.Retry? && rows[2].run == rows[2].stage == 0
              && Count(rows[..2], 0, 0) == 2 > MaxRetries(OneStage(Some(1)), 0)
  {
    EmptyInOrder();
    ReachThird();
    var rows := [FAILED, SECOND, THIRD];
    var events :| Run(OneStage(Some(1)), EMPTY, events) == Seen(LATE.(pc := Gate(0, 2), rows := rows));
    assert rows[..2] == [FAILED, SECOND] && rows[..2][..1] == [FAILED] && [FAILED][..0] == [];
    assert Count([], 0, 0) == 0;
    assert Count([FAILED], 0, 0) == 1;
    assert Count(rows[..2], 0, 0) == 2;
  }
}

/**
 Attempt numbers. createStageRun reads the maximum and inserts in two statements, so the
 numbers are 1..n per run and stage exactly as long as those two statements of different
 callers do not cross. Executors never cross one another; a trigger call can cross an
 executor when its seed row arrives after the run was claimed (`late`).
 */
module RunAttempts {
  import opened Wrappers
  import opened PipelineRuns
  import opened RunMachine
  import opened RunSlots
  import opened RunInvariant
  import opened RunBudget
  import opened RunTraces

  /** Each row of the run carries one more than the number of earlier rows of its stage. */
  ghost predicate Dense(rows: seq<StageRun>, r: RunId) {
    forall i | 0 <= i < |rows| && rows[i].run == r :: rows[i].attempt == 1 + Count(rows[..i], r, rows[i].stage)
  }

  // ---------------------------------------------------------------- counting

  lemma {:induction false} SameKeysCount(a: seq<StageRun>, b: seq<StageRun>, r: RunId, stage: StageId)
    requires SameKeys(a, b)
    ensures Count(a, r, stage) == Count(b, r, stage)
  {
    if a != [] {
      SameKeysCount(a[..|a| - 1], b[..|b| - 1], r, stage);
    }
  }

  lemma SameKeysDense(a: seq<StageRun>, b: seq<StageRun>, r: RunId)
    requires SameKeys(a, b) && Dense(a, r)
    ensures Dense(b, r)
  {
    forall i | 0 <= i < |b| && b[i].run == r
      ensures b[i].attempt == 1 + Count(b[..i], r, b[i].stage)
    {
      SameKeysCount(a[..i], b[..i], r, b[i].stage);
    }
  }

  lemma AppendCount(rows: seq<StageRun>, row: StageRun, r: RunId, stage: StageId)
    ensures Count(rows + [row], r, stage) == Count(rows, r, stage) + if row.run == r && row.stage == stage then 1 else 0
  {
    assert (rows + [row])[..|rows|] == rows;
  }

  /** Inserting a row keeps the table dense exactly when the maximum it was computed from is
      still the number of rows. */
  lemma AppendDense(rows: seq<StageRun>, row: StageRun, r: RunId)
    ensures Dense(rows + [row], r) <==> Dense(rows, r) && (row.run == r ==> row.attempt == 1 + Count(rows, r, row.stage))
  {
    var rows' := rows + [row];
    assert rows'[..|rows|] == rows;
    assert forall i | 0 <= i < |rows| :: rows'[i] == rows[i] && rows'[..i] == rows[..i];
  }

  /** In a dense table the maximum read by createStageRun is the number of rows. */
  lemma {:induction false} DenseMax(rows: seq<StageRun>, r: RunId, stage: StageId)
    requires Dense(rows, r)
    ensures MaxAttempt(rows, r, stage) == Count(rows, r, stage)
  {
    if rows != [] {
      var init := rows[..|rows| - 1];
      forall i | 0 <= i < |init| && init[i].run == r
        ensures init[i].attempt == 1 + Count(init[..i], r, init[i].stage)
      {
        assert init[..i] == rows[..i];
      }
      DenseMax(init, r, stage);
    }
  }

  /** Dense means: attempts of a stage rise with the rows, stay within 1..n, and miss no number. */
  lemma {:induction false} DenseIsExact(rows: seq<StageRun>, r: RunId, stage: StageId)
    requires Dense(rows, r)
    ensures forall i | 0 <= i < |rows| && rows[i].run == r && rows[i].stage == stage ::
              1 <= rows[i].attempt <= Count(rows, r, stage)
    ensures forall i, j | 0 <= i < j < |rows| && rows[i].run == rows[j].run == r && rows[i].stage == rows[j].stage == stage ::
              rows[i].attempt < rows[j].attempt
    ensures forall k | 1 <= k <= Count(rows, r, stage) :: AttemptExists(rows, r, stage, k)
  {
    if rows != [] {
      var n := |rows| - 1;
      var init := rows[..n];
      assert rows == init + [rows[n]];
      forall i | 0 <= i < |init| && init[i].run == r
        ensures init[i].attempt == 1 + Count(init[..i], r, init[i].stage)
      {
        assert init[..i] == rows[..i];
      }
      DenseIsExact(init, r, stage);
      forall k | 1 <= k <= Count(rows, r, stage)
        ensures AttemptExists(rows, r, stage, k)
      {
        if k <= Count(init, r, stage) {
          assert AttemptExists(init, r, stage, k);
          var j :| 0 <= j < |init| && init[j].run == r && init[j].stage == stage && init[j].attempt == k;
          assert rows[j].attempt == k;
        } else {
          assert rows[n].attempt == k;
        }
      }
    }
  }

  // ---------------------------------------------------------------- the machine

  ghost predicate InsertDense(db: Db, late: set<RunId>, pc: Pc) {
    pc.Insert? && pc.r !in late ==> pc.n == Count(db.rows, pc.r, pc.s)
  }

  /** A trigger call that has not inserted yet has a run without rows, unless the run was claimed. */
  ghost predicate SeedDense(db: Db, r: RunId, seed: SeedPc) {
    IsPending(db, r) ==> (forall i | 0 <= i < |db.rows| :: db.rows[i].run != r) && (seed.SeedInsert? ==> seed.n == 0)
  }

  ghost predicate DenseInv(s: State) {
    && (forall r :: r !in s.late ==> Dense(s.db.rows, r))
    && (forall t :: t in s.tasks ==> InsertDense(s.db, s.late, s.tasks[t].pc))
    && (forall r :: r in s.seeds ==> SeedDense(s.db, r, s.seeds[r]))
  }

  /** All steps but inserts keep the keys of the table. */
  lemma ResumeKeys(c: Config, db: Db, lockFree: bool, pc: Pc, k: Choice)
    requires Handled(pc).Some? && PcOk(c, db, pc)
    ensures var (db', m) := Resume(c, db, lockFree, pc, k);
            && (!pc.Insert? ==> SameKeys(db.rows, db'.rows))
            && (m.At? && m.pc.Insert? ==> pc.ReadMax? && m.pc == Insert(pc.r, pc.s, MaxAttempt(db.rows, pc.r, pc.s), pc.cause))
            && (pc.Insert? ==> m == At(Gate(pc.r, |db.rows|)) && db' == AddRow(db, pc.r, pc.s, pc.n + 1, pc.cause))
  {
    hide MaxAttempt, RetryBelow, CauseOk, RunningCount, OnlySeeds, InsertFits;
    if InHandle(pc) {
      HandleKeys(c, db, lockFree, pc);
    } else if InLaunch(pc) {
      LaunchKeys(c, db, pc, k);
    } else {
      SettleKeys(c, db, pc, k);
    }
    hide Handle, Launch, Settle, SameKeys;
  }

  lemma HandleKeys(c: Config, db: Db, lockFree: bool, pc: Pc)
    requires InHandle(pc)
    ensures var (db', m) := Handle(c, db, lockFree, pc); db'.rows == db.rows && (m.At? ==> !m.pc.Insert?)
  {
    hide RunningCount;
  }

  lemma LaunchKeys(c: Config, db: Db, pc: Pc, k: Choice)
    requires InLaunch(pc) && (RowOf(pc).Some? ==> RowOf(pc).value < |db.rows|)
    ensures var (db', m) := Launch(c, db, pc, k);
            && (!pc.Insert? ==> SameKeys(db.rows, db'.rows))
            && (m.At? && m.pc.Insert? ==> pc.ReadMax? && m.pc == Insert(pc.r, pc.s, MaxAttempt(db.rows, pc.r, pc.s), pc.cause))
            && (pc.Insert? ==> m == At(Gate(pc.r, |db.rows|)) && db' == AddRow(db, pc.r, pc.s, pc.n + 1, pc.cause))
  {
    hide MaxAttempt;
  }

  lemma SettleKeys(c: Config, db: Db, pc: Pc, k: Choice)
    requires Handled(pc).Some? && !InHandle(pc) && !InLaunch(pc) && (RowOf(pc).Some? ==> RowOf(pc).value < |db.rows|)
    ensures var (db', m) := Settle(c, db, pc, k); SameKeys(db.rows, db'.rows) && (m.At? ==> !m.pc.Insert?)
  {
    hide RouteTo;
  }

  lemma {:induction false} NoRows(rows: seq<StageRun>, r: RunId, stage: StageId)
    requires forall i | 0 <= i < |rows| :: rows[i].run != r
    ensures Count(rows, r, stage) == 0 && MaxAttempt(rows, r, stage) == 0
  {
    if rows != [] {
      NoRows(rows[..|rows| - 1], r, stage);
    }
  }

  /** Tables with the same keys are equally dense. */
  lemma KeysKeep(s: State, s': State)
    requires DenseInv(s) && SameKeys(s.db.rows, s'.db.rows) && NeverPending(s.db, s'.db)
    requires s'.late == s.late && s'.seeds == s.seeds && forall r :: r in s.seeds ==> r in s.db.runs
    requires forall t :: t in s'.tasks && s'.tasks[t].pc.Insert? ==>
               t in s.tasks && (s'.tasks[t].pc == s.tasks[t].pc || FromMax(s.db.rows, s'.tasks[t].pc))
    ensures DenseInv(s')
  {
    forall r | r !in s'.late
      ensures Dense(s'.db.rows, r)
    {
      SameKeysDense(s.db.rows, s'.db.rows, r);
    }
    forall t | t in s'.tasks
      ensures InsertDense(s'.db, s'.late, s'.tasks[t].pc)
    {
      var pc := s'.tasks[t].pc;
      if pc.Insert? && pc.r !in s.late {
        SameKeysCount(s.db.rows, s'.db.rows, pc.r, pc.s);
        DenseMax(s.db.rows, pc.r, pc.s);
      }
    }
  }

  predicate FromMax(rows: seq<StageRun>, pc: Pc) {
    pc.Insert? && pc.n == MaxAttempt(rows, pc.r, pc.s)
  }

  lemma DenseInsert(c: Config, s: State, t: nat, k: Choice)
    requires RunInv(c, s) && DenseInv(s) && t in s.tasks && s.tasks[t].pc.Insert?
    ensures DenseInv(ActStep(c, s, t, k))
  {
    var s', pc := ActStep(c, s, t, k), s.tasks[t].pc;
    assert TaskOk(c, s.db, s.inFlight, s.tasks[t]);
    assert s'.db == AddRow(s.db, pc.r, pc.s, pc.n + 1, pc.cause);
    hide TaskOk, RunInv, ActStep;
    var row := StageRun(pc.r, pc.s, pc.n + 1, RowPending, pc.cause, false);
    forall r | r !in s.late
      ensures Dense(s'.db.rows, r)
    {
      AppendDense(s.db.rows, row, r);
    }
    forall q | q in s'.tasks
      ensures InsertDense(s'.db, s.late, s'.tasks[q].pc)
    {
      InsertOther(c, s, t, k, q, row);
    }
  }

  lemma InsertOther(c: Config, s: State, t: nat, k: Choice, q: nat, row: StageRun)
    requires RunInv(c, s) && DenseInv(s) && t in s.tasks && s.tasks[t].pc.Insert? && q in s.tasks
    requires row.run == s.tasks[t].pc.r
    requires ActStep(c, s, t, k).db.rows == s.db.rows + [row]
    ensures InsertDense(ActStep(c, s, t, k).db, s.late, ActStep(c, s, t, k).tasks[q].pc)
  {
    if q != t && s.tasks[q].pc.Insert? && s.tasks[q].pc.r !in s.late {
      assert Apart(s.tasks[t], s.tasks[q]) && InsertDense(s.db, s.late, s.tasks[q].pc);
      AppendCount(s.db.rows, row, s.tasks[q].pc.r, s.tasks[q].pc.s);
    }
  }

  lemma DenseItem(c: Config, s: State, t: nat, k: Choice)
    requires RunInv(c, s) && DenseInv(s) && t in s.tasks && Handled(s.tasks[t].pc).None?
    ensures DenseInv(NextItem(c, s, t, k))
  {
    hide DenseInv, LockInv, AllApart;
    KeysKeep(s, NextItem(c, s, t, k));
  }

  lemma DenseMove(c: Config, s: State, t: nat, k: Choice)
    requires RunInv(c, s) && DenseInv(s) && t in s.tasks && Handled(s.tasks[t].pc).Some? && !s.tasks[t].pc.Insert?
    ensures var (db', m) := Resume(c, s.db, s.lock.None?, s.tasks[t].pc, k); DenseInv(Apply(s, t, db', m))
  {
    hide Resume, DenseInv, DataOk, PcOk, AllApart, LockInv, StaleOk, MaxAttempt;
    var pc := s.tasks[t].pc;
    var (db', m) := Resume(c, s.db, s.lock.None?, pc, k);
    assert TaskOk(c, s.db, s.inFlight, s.tasks[t]);
    ResumeKeys(c, s.db, s.lock.None?, pc, k);
    ResumeNeverPending(c, s.db, s.lock.None?, pc, k);
    KeysKeep(s, Apply(s, t, db', m));
  }

  lemma DenseSeedRows(c: Config, s: State, r: RunId, row: StageRun)
    requires DenseInv(s) && r in s.seeds && s.seeds[r].SeedInsert?
    requires row == StageRun(r, s.seeds[r].s, s.seeds[r].n + 1, RowPending, Seed, false)
    ensures forall q :: q !in s.late && (q != r || IsPending(s.db, r)) ==> Dense(s.db.rows + [row], q)
  {
    if IsPending(s.db, r) {
      NoRows(s.db.rows, r, row.stage);
    }
    forall q | q !in s.late && (q != r || IsPending(s.db, r))
      ensures Dense(s.db.rows + [row], q)
    {
      AppendDense(s.db.rows, row, q);
    }
  }

  lemma DenseSeed(c: Config, s: State, r: RunId)
    requires RunInv(c, s) && DenseInv(s) && r in s.seeds && s.seeds[r].SeedInsert?
    ensures DenseInv(Next(c, s, TriggerInsert(r)))
  {
    var row := StageRun(r, s.seeds[r].s, s.seeds[r].n + 1, RowPending, Seed, false);
    var s' := Next(c, s, TriggerInsert(r));
    SeedShape(c, s, r);
    DenseSeedRows(c, s, r, row);
    DenseSeedTasks(c, s, r, row);
    hide RunInv, Dense, Next, InsertDense, MaxAttempt;
    assert forall q :: q in s'.seeds ==> SeedDense(s'.db, q, s'.seeds[q]) by {
      assert forall q :: q in s.seeds ==> SeedDense(s.db, q, s.seeds[q]);
    }
  }

  lemma SeedShape(c: Config, s: State, r: RunId)
    requires r in s.seeds && s.seeds[r].SeedInsert?
    ensures var s' := Next(c, s, TriggerInsert(r));
            && s'.db == s.db.(rows := s.db.rows + [StageRun(r, s.seeds[r].s, s.seeds[r].n + 1, RowPending, Seed, false)])
            && s'.seeds == s.seeds - {r} && s'.tasks == s.tasks
            && s'.late == (if IsPending(s.db, r) then s.late else s.late + {r})
  {
    hide MaxAttempt;
  }

  lemma DenseSeedTasks(c: Config, s: State, r: RunId, row: StageRun)
    requires RunInv(c, s) && DenseInv(s) && row.run == r
    ensures forall t | t in s.tasks ::
              InsertDense(s.db.(rows := s.db.rows + [row]), if IsPending(s.db, r) then s.late else s.late + {r}, s.tasks[t].pc)
  {
    forall t | t in s.tasks
      ensures InsertDense(s.db.(rows := s.db.rows + [row]), if IsPending(s.db, r) then s.late else s.late + {r}, s.tasks[t].pc)
    {
      assert TaskOk(c, s.db, s.inFlight, s.tasks[t]) && InsertDense(s.db, s.late, s.tasks[t].pc);
      hide RunInv, DenseInv, DataOk;
      DenseSeedTask(c, s.db, s.late, s.tasks[t].pc, row);
    }
  }

  lemma DenseSeedTask(c: Config, db: Db, late: set<RunId>, pc: Pc, row: StageRun)
    requires PcOk(c, db, pc) && InsertDense(db, late, pc)
    ensures InsertDense(db.(rows := db.rows + [row]), if IsPending(db, row.run) then late else late + {row.run}, pc)
  {
    if pc.Insert? && pc.r !in late {
      AppendCount(db.rows, row, pc.r, pc.s);
    }
  }

  lemma DenseTrigger(c: Config, s: State, e: Event)
    requires RunInv(c, s) && DenseInv(s) && (e.Trigger? || e.TriggerRead?)
    ensures DenseInv(Next(c, s, e))
  {
    assert forall i | 0 <= i < |s.db.rows| :: RowOk(c, s.db, s.db.rows[i]);
    hide DataOk, TaskOk, AllApart;
    if e.TriggerRead? && e.r in s.seeds && s.seeds[e.r].SeedRead? && IsPending(s.db, e.r) {
      NoRows(s.db.rows, e.r, s.seeds[e.r].s);
    }
  }

  lemma DenseOutside(c: Config, s: State, e: Event)
    requires RunInv(c, s) && DenseInv(s)
    requires e.NewRun? || IsCancel(e) || e.Deliver? || e.StartDrain? || e.Crash? || e.Boot? || e.Throw?
    ensures DenseInv(Next(c, s, e))
  {
    hide DenseInv, DataOk, TaskOk, AllApart, StaleOk, LockInv, MaxAttempt, ActStep;
    OutsideKeys(c, s, e);
    assert forall r :: r in s.seeds ==> r in s.db.runs;
    hide RunInv, Next, SameKeys, NeverPending;
    KeysKeep(s, Next(c, s, e));
  }

  lemma OutsideKeys(c: Config, s: State, e: Event)
    requires e.NewRun? || IsCancel(e) || e.Deliver? || e.StartDrain? || e.Crash? || e.Boot? || e.Throw?
    ensures var s' := Next(c, s, e);
            && SameKeys(s.db.rows, s'.db.rows) && NeverPending(s.db, s'.db)
            && s'.late == s.late && s'.seeds == s.seeds
            && forall t :: t in s'.tasks && s'.tasks[t].pc.Insert? ==> t in s.tasks && s'.tasks[t].pc == s.tasks[t].pc
  {
    hide ActStep;
  }

  lemma DenseStep(c: Config, s: State, e: Event)
    requires RunInv(c, s) && DenseInv(s)
    ensures DenseInv(Next(c, s, e))
  {
    hide RunInv, DenseInv, Resume, NextItem, Apply, Unwind, AddRow;
    match e
    case Act(t, k) =>
      if t in s.tasks {
        if Handled(s.tasks[t].pc).None? {
          DenseItem(c, s, t, k);
        } else if s.tasks[t].pc.Insert? {
          DenseInsert(c, s, t, k);
        } else {
          DenseMove(c, s, t, k);
        }
      }
    case TriggerInsert(r) => if r in s.seeds && s.seeds[r].SeedInsert? { DenseSeed(c, s, r); }
    case TriggerRead(r) => DenseTrigger(c, s, e);
    case Trigger(_, _) => DenseTrigger(c, s, e);
    case _ => DenseOutside(c, s, e);
  }

  lemma {:induction false} DenseKept(c: Config, s: State, events: seq<Event>)
    requires RunInv(c, s) && DenseInv(s)
    ensures var s' := Run(c, s, events); forall r :: r !in s'.late ==> Dense(s'.db.rows, r)
    ensures DenseInv(Run(c, s, events))
    decreases |events|
  {
    if events != [] {
      hide RunInv, Next;
      InvStep(c, s, events[0]);
      DenseStep(c, s, events[0]);
      DenseKept(c, Next(c, s, events[0]), events[1..]);
    }
  }

  /** In every reachable state the attempts of each stage of a run are exactly 1..n, unless the
      seed row of that run was inserted after the run had left pending. */
  lemma AttemptsExact(c: Config, s: State, events: seq<Event>)
    requires Init(c, s) && forall r :: Dense(s.db.rows, r)
    ensures var s' := Run(c, s, events); forall r :: r !in s'.late ==> Dense(s'.db.rows, r)
  {
    InitInv(c, s);
    DenseKept(c, s, events);
  }

  // ---------------------------------------------------------------- exactly when

  /** The step inserts a row of the run numbered from a maximum that is the maximum no longer: since it was
      read, another insert has come in between. */
  predicate Overtaken(s: State, e: Event, r: RunId) {
    || (e.TriggerInsert? && e.r == r && r in s.seeds && s.seeds[r].SeedInsert?
        && s.seeds[r].n != MaxAttempt(s.db.rows, r, s.seeds[r].s))
    || (e.Act? && e.t in s.tasks && s.tasks[e.t].pc.Insert? && s.tasks[e.t].pc.r == r
        && s.tasks[e.t].pc.n != MaxAttempt(s.db.rows, r, s.tasks[e.t].pc.s))
  }

  predicate SomeOvertaken(c: Config, s: State, events: seq<Event>, r: RunId)
    decreases |events|
  {
    events != [] && (Overtaken(s, events[0], r) || SomeOvertaken(c, Next(c, s, events[0]), events[1..], r))
  }

  /** No attempt number of a stage is used twice. */
  ghost predicate Distinct(rows: seq<StageRun>, r: RunId) {
    forall i, j | 0 <= i < j < |rows| && rows[i].run == rows[j].run == r && rows[i].stage == rows[j].stage ::
      rows[i].attempt != rows[j].attempt
  }

  /** Which rows a step appends, if any; every other step keeps the keys. */
  lemma StepKeys(c: Config, s: State, e: Event)
    requires RunInv(c, s)
    ensures var rows' := Next(c, s, e).db.rows;
            || SameKeys(s.db.rows, rows')
            || (e.TriggerInsert? && e.r in s.seeds && s.seeds[e.r].SeedInsert?)
            || (e.Act? && e.t in s.tasks && s.tasks[e.t].pc.Insert?)
  {
    if e.Act? && e.t in s.tasks && !s.tasks[e.t].pc.Insert? {
      assert TaskOk(c, s.db, s.inFlight, s.tasks[e.t]);
      hide Resume, DataOk, TaskOk, AllApart, StaleOk, LockInv;
      if Handled(s.tasks[e.t].pc).Some? {
        ResumeKeys(c, s.db, s.lock.None?, s.tasks[e.t].pc, e.choice);
      }
    }
  }

  /** The two steps that append a row: a trigger's and an activation's. */
  function Inserted(s: State, e: Event): Option<StageRun> {
    if e.TriggerInsert? && e.r in s.seeds && s.seeds[e.r].SeedInsert? then
      Some(StageRun(e.r, s.seeds[e.r].s, s.seeds[e.r].n + 1, RowPending, Seed, false))
    else if e.Act? && e.t in s.tasks && s.tasks[e.t].pc.Insert? then
      var pc := s.tasks[e.t].pc;
      Some(StageRun(pc.r, pc.s, pc.n + 1, RowPending, pc.cause, false))
    else None
  }

  lemma InsertedRow(c: Config, s: State, e: Event)
    requires RunInv(c, s)
    ensures Inserted(s, e).Some? ==> Next(c, s, e).db.rows == s.db.rows + [Inserted(s, e).value]
    ensures Inserted(s, e).None? ==> SameKeys(s.db.rows, Next(c, s, e).db.rows)
    ensures forall r :: Overtaken(s, e, r) <==>
              Inserted(s, e).Some? && var row := Inserted(s, e).value;
              row.run == r && row.attempt != MaxAttempt(s.db.rows, r, row.stage) + 1
  {
    StepKeys(c, s, e);
    hide RunInv, SameKeys, MaxAttempt;
  }

  lemma DenseStepIff(c: Config, s: State, e: Event, r: RunId)
    requires RunInv(c, s)
    ensures Dense(Next(c, s, e).db.rows, r) <==> Dense(s.db.rows, r) && !Overtaken(s, e, r)
  {
    var rows, rows' := s.db.rows, Next(c, s, e).db.rows;
    InsertedRow(c, s, e);
    hide RunInv, Next, Dense, MaxAttempt, Overtaken, Inserted, SameKeys;
    if Inserted(s, e).Some? {
      var row := Inserted(s, e).value;
      AppendDense(rows, row, r);
      if Dense(rows, r) {
        DenseMax(rows, r, row.stage);
      }
    } else {
      KeysSymmetric(rows, rows');
      if Dense(rows, r) {
        SameKeysDense(rows, rows', r);
      }
      if Dense(rows', r) {
        SameKeysDense(rows', rows, r);
      }
    }
  }

  lemma KeysSymmetric(a: seq<StageRun>, b: seq<StageRun>)
    requires SameKeys(a, b)
    ensures SameKeys(b, a)
  {
  }

  lemma {:induction false} DenseIffKept(c: Config, s: State, events: seq<Event>, r: RunId)
    requires RunInv(c, s)
    ensures Dense(Run(c, s, events).db.rows, r) <==> Dense(s.db.rows, r) && !SomeOvertaken(c, s, events, r)
    decreases |events|
  {
    if events != [] {
      hide RunInv, Dense, Overtaken, Next;
      InvStep(c, s, events[0]);
      DenseStepIff(c, s, events[0], r);
      DenseIffKept(c, Next(c, s, events[0]), events[1..], r);
    }
  }

  // ---------------------------------------------------------------- an overtaken insert repeats a number

  /** A maximum that somebody has read was the maximum at some time, so it is not above it now. */
  ghost predicate NotAhead(s: State) {
    && (forall t :: t in s.tasks && s.tasks[t].pc.Insert? ==>
          s.tasks[t].pc.n <= MaxAttempt(s.db.rows, s.tasks[t].pc.r, s.tasks[t].pc.s))
    && (forall r :: r in s.seeds && s.seeds[r].SeedInsert? ==> s.seeds[r].n <= MaxAttempt(s.db.rows, r, s.seeds[r].s))
  }

  ghost predicate MaxGrows(a: seq<StageRun>, b: seq<StageRun>) {
    forall r, s :: MaxAttempt(a, r, s) <= MaxAttempt(b, r, s)
  }

  lemma MaxGrowsStep(c: Config, s: State, e: Event)
    requires RunInv(c, s)
    ensures MaxGrows(s.db.rows, Next(c, s, e).db.rows)
  {
    InsertedRow(c, s, e);
    hide RunInv, Next, Overtaken, Inserted, SameKeys, MaxAttempt;
    forall r, stage
      ensures MaxAttempt(s.db.rows, r, stage) <= MaxAttempt(Next(c, s, e).db.rows, r, stage)
    {
      if Inserted(s, e).Some? {
        AppendMax(s.db.rows, Inserted(s, e).value, r, stage);
      } else {
        SameKeysMax(s.db.rows, Next(c, s, e).db.rows, r, stage);
      }
    }
  }

  /** Every number awaiting its insert was awaiting it before, or has just been read. */
  ghost predicate FreshlyRead(s: State, s': State) {
    && (forall t :: t in s'.tasks && s'.tasks[t].pc.Insert? ==>
          (t in s.tasks && s'.tasks[t].pc == s.tasks[t].pc) || FromMax(s.db.rows, s'.tasks[t].pc))
    && (forall r :: r in s'.seeds && s'.seeds[r].SeedInsert? ==>
          (r in s.seeds && s'.seeds[r] == s.seeds[r]) || s'.seeds[r].n == MaxAttempt(s.db.rows, r, s'.seeds[r].s))
  }

  lemma FreshMaxima(c: Config, s: State, e: Event)
    requires RunInv(c, s)
    ensures FreshlyRead(s, Next(c, s, e))
  {
    hide FreshlyRead, RunInv;
    if e.Act? {
      if e.t in s.tasks {
        hide ActStep;
        FreshAct(c, s, e.t, e.choice);
      } else {
        FreshSame(s);
      }
    } else if e.Trigger? || e.TriggerRead? || e.TriggerInsert? {
      FreshTrigger(c, s, e);
    } else {
      hide Next;
      OutsideKeys(c, s, e);
      FreshOutside(s, Next(c, s, e));
    }
  }

  lemma FreshSame(s: State)
    ensures FreshlyRead(s, s)
  {
  }

  lemma FreshOutside(s: State, s': State)
    requires s'.seeds == s.seeds
    requires forall t :: t in s'.tasks && s'.tasks[t].pc.Insert? ==> t in s.tasks && s'.tasks[t].pc == s.tasks[t].pc
    ensures FreshlyRead(s, s')
  {
  }

  lemma FreshTrigger(c: Config, s: State, e: Event)
    requires e.Trigger? || e.TriggerRead? || e.TriggerInsert?
    ensures FreshlyRead(s, Next(c, s, e))
  {
    hide ActStep, MaxAttempt;
  }

  lemma FreshAct(c: Config, s: State, t: nat, k: Choice)
    requires RunInv(c, s) && t in s.tasks
    ensures FreshlyRead(s, ActStep(c, s, t, k))
  {
    assert TaskOk(c, s.db, s.inFlight, s.tasks[t]);
    hide RunInv, FreshlyRead, PcOk, OnlyOwnRow;
    if Handled(s.tasks[t].pc).Some? {
      hide Resume, NextItem, Apply;
      FreshMove(c, s, t, k);
    } else {
      ItemShape(c, s, t, k);
      hide Resume, NextItem, Apply;
      FreshOne(s, t, NextItem(c, s, t, k));
    }
  }

  lemma FreshMove(c: Config, s: State, t: nat, k: Choice)
    requires t in s.tasks && Handled(s.tasks[t].pc).Some? && PcOk(c, s.db, s.tasks[t].pc)
    ensures var (db', m) := Resume(c, s.db, s.lock.None?, s.tasks[t].pc, k); FreshlyRead(s, Apply(s, t, db', m))
  {
    var (db', m) := Resume(c, s.db, s.lock.None?, s.tasks[t].pc, k);
    ResumeKeys(c, s.db, s.lock.None?, s.tasks[t].pc, k);
    hide Resume, NextItem, FreshlyRead, PcOk, MaxAttempt, SameKeys;
    FreshOne(s, t, Apply(s, t, db', m));
  }

  lemma FreshOne(s: State, t: nat, s': State)
    requires t in s.tasks && t in s'.tasks && s'.tasks == s.tasks[t := s'.tasks[t]] && s'.seeds == s.seeds
    requires s'.tasks[t].pc.Insert? ==> s'.tasks[t].pc == s.tasks[t].pc || FromMax(s.db.rows, s'.tasks[t].pc)
    ensures FreshlyRead(s, s')
  {
    hide MaxAttempt;
  }

  lemma NotAheadStep(c: Config, s: State, e: Event)
    requires RunInv(c, s) && NotAhead(s)
    ensures NotAhead(Next(c, s, e))
  {
    FreshMaxima(c, s, e);
    MaxGrowsStep(c, s, e);
    hide RunInv, Next, MaxAttempt;
  }

  lemma OvertakenRepeats(c: Config, s: State, e: Event, r: RunId)
    requires RunInv(c, s) && NotAhead(s) && Dense(s.db.rows, r) && Overtaken(s, e, r)
    ensures !Distinct(Next(c, s, e).db.rows, r)
  {
    InsertedRow(c, s, e);
    var rows, row := s.db.rows, Inserted(s, e).value;
    assert row.attempt <= MaxAttempt(rows, r, row.stage);
    hide RunInv, Next, Overtaken, NotAhead, MaxAttempt, Inserted;
    DenseMax(rows, r, row.stage);
    DenseIsExact(rows, r, row.stage);
    assert AttemptExists(rows, r, row.stage, row.attempt);
    var j :| 0 <= j < |rows| && rows[j].run == r && rows[j].stage == row.stage && rows[j].attempt == row.attempt;
    var rows' := rows + [row];
    assert rows'[j] == rows[j] && rows'[|rows|] == row;
  }

  lemma RepeatsStay(c: Config, s: State, e: Event, r: RunId)
    requires RunInv(c, s) && !Distinct(s.db.rows, r)
    ensures !Distinct(Next(c, s, e).db.rows, r)
  {
    InsertedRow(c, s, e);
    hide RunInv, Next, Overtaken, Inserted;
    var rows, rows' := s.db.rows, Next(c, s, e).db.rows;
    var i, j :| 0 <= i < j < |rows| && rows[i].run == rows[j].run == r && rows[i].stage == rows[j].stage
                && rows[i].attempt == rows[j].attempt;
    assert rows'[i].run == rows'[j].run == r && rows'[i].stage == rows'[j].stage && rows'[i].attempt == rows'[j].attempt;
  }

  lemma DenseDistinct(rows: seq<StageRun>, r: RunId)
    requires Dense(rows, r)
    ensures Distinct(rows, r)
  {
    forall i, j | 0 <= i < j < |rows| && rows[i].run == rows[j].run == r && rows[i].stage == rows[j].stage
      ensures rows[i].attempt != rows[j].attempt
    {
      DenseIsExact(rows, r, rows[i].stage);
    }
  }

  lemma {:induction false} RepeatsKept(c: Config, s: State, events: seq<Event>, r: RunId)
    requires RunInv(c, s) && !Distinct(s.db.rows, r)
    ensures !Distinct(Run(c, s, events).db.rows, r)
    decreases |events|
  {
    if events != [] {
      hide RunInv, Distinct, Next;
      InvStep(c, s, events[0]);
      RepeatsStay(c, s, events[0], r);
      RepeatsKept(c, Next(c, s, events[0]), events[1..], r);
    }
  }

  lemma {:induction false} DistinctIffKept(c: Config, s: State, events: seq<Event>, r: RunId)
    requires RunInv(c, s) && NotAhead(s) && Dense(s.db.rows, r)
    ensures Distinct(Run(c, s, events).db.rows, r) <==> !SomeOvertaken(c, s, events, r)
    decreases |events|
  {
    if events == [] {
      DenseDistinct(s.db.rows, r);
    } else {
      hide RunInv, NotAhead, Distinct, Dense, Overtaken, Next;
      var s' := Next(c, s, events[0]);
      InvStep(c, s, events[0]);
      if Overtaken(s, events[0], r) {
        OvertakenRepeats(c, s, events[0], r);
        RepeatsKept(c, s', events[1..], r);
      } else {
        NotAheadStep(c, s, events[0]);
        DenseStepIff(c, s, events[0], r);
        DistinctIffKept(c, s', events[1..], r);
      }
    }
  }

  /** For every run: its attempts are 1..n in order, and equally no attempt number repeats, if and only if no
      insert of one of its rows used a maximum that another insert had overtaken. */
  lemma AttemptsExactIff(c: Config, s: State, events: seq<Event>, r: RunId)
    requires Init(c, s) && Dense(s.db.rows, r)
    ensures Dense(Run(c, s, events).db.rows, r) <==> !SomeOvertaken(c, s, events, r)
    ensures Distinct(Run(c, s, events).db.rows, r) <==> !SomeOvertaken(c, s, events, r)
  {
    InitInv(c, s);
    DenseIffKept(c, s, events, r);
    DistinctIffKept(c, s, events, r);
  }

  /** Only a run whose seed row came late has an overtaken insert. */
  lemma OvertakenIsLate(c: Config, s: State, events: seq<Event>, r: RunId)
    requires Init(c, s) && forall q :: Dense(s.db.rows, q)
    ensures SomeOvertaken(c, s, events, r) ==> r in Run(c, s, events).late
  {
    AttemptsExact(c, s, events);
    AttemptsExactIff(c, s, events, r);
  }

  /** The two statements of a trigger's createStageRun can enclose a whole launch: then two rows
      of one stage carry attempt 1. */
  lemma LateSeedRepeatsAttempt(m: Option<int>)
    ensures Init(OneStage(m), EMPTY)
    ensures exists events :: Run(OneStage(m), EMPTY, events).db.rows == [FIRST, SECOND]
    ensures !Distinct([FIRST, SECOND], 0)
  {
    ReachLate(m);
    var events :| Run(OneStage(m), EMPTY, events) == Seen(LATE);
    assert [FIRST, SECOND][0].attempt == [FIRST, SECOND][1].attempt;
  }
}

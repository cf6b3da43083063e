/** The invariant of the run machine: who may touch which run, and what the rows record. */
module RunInvariant {
  import opened Wrappers
  import opened PipelineRuns
  import opened RunMachine
  import opened RunSlots

  // ---------------------------------------------------------------- the tables

  predicate IsRetry(row: StageRun, r: RunId, stage: StageId) {
    row.run == r && row.stage == stage && row.cause.Retry?
  }

  /** Every relaunch of this stage so far answered to a failed attempt below `n`. */
  ghost predicate RetryBelow(rows: seq<StageRun>, r: RunId, stage: StageId, n: nat) {
    forall j :: 0 <= j < |rows| && IsRetry(rows[j], r, stage) ==> rows[j].cause.failed < n
  }

  ghost predicate RowOk(c: Config, db: Db, row: StageRun) {
    && row.run in db.runs && 1 <= row.attempt
    && (row.status == RowPending ==> !row.started)
    && (row.status == RowRunning ==> row.started && RetryBelow(db.rows, row.run, row.stage, row.attempt))
    && (row.started || row.cause != Seed ==> Launched(c, db, row.run))
    && (row.cause.Retry? ==> 1 <= row.cause.failed < row.attempt && row.cause.failed <= MaxRetries(c, row.stage))
  }

  ghost predicate Launched(c: Config, db: Db, r: RunId) {
    r in db.runs && db.runs[r] != Pending && c.pipeline(r) != []
  }

  /** A run has at most one running row, and its relaunches after failures answer to ever
      later attempts. */
  ghost predicate DataOk(c: Config, db: Db) {
    && (forall i :: 0 <= i < |db.rows| ==> RowOk(c, db, db.rows[i]))
    && (forall i, j | 0 <= i < j < |db.rows| && db.rows[i].status == db.rows[j].status == RowRunning ::
          db.rows[i].run != db.rows[j].run)
    && (forall i, j | 0 <= i < j < |db.rows| && IsRetry(db.rows[i], db.rows[j].run, db.rows[j].stage)
                      && db.rows[j].cause.Retry? :: db.rows[i].cause.failed < db.rows[j].cause.failed)
  }

  // ---------------------------------------------------------------- one activation

  /** The run an activation drives: claimed by it, or handed to it by the recovery loop. */
  function Owned(pc: Pc): Option<RunId> {
    if pc.GetStageRuns? || InLaunch(pc) || pc.Complete? || pc.Finish? || pc.RecoverRow? || pc.RecoverRun?
    then Some(pc.r) else None
  }

  /** The awaits at which the activation's row may be running. */
  predicate MayRun(pc: Pc) {
    pc.Exec? || pc.Drive? || pc.Check? || pc.Complete? || pc.RecoverRow?
  }

  ghost predicate AttemptExists(rows: seq<StageRun>, r: RunId, stage: StageId, n: nat) {
    exists j :: 0 <= j < |rows| && rows[j].run == r && rows[j].stage == stage && rows[j].attempt == n
  }

  ghost predicate CauseOk(c: Config, rows: seq<StageRun>, r: RunId, stage: StageId, cause: Cause) {
    && cause != Seed
    && (cause.Retry? ==>
          && 1 <= cause.failed <= MaxRetries(c, stage)
          && AttemptExists(rows, r, stage, cause.failed)
          && RetryBelow(rows, r, stage, cause.failed))
  }

  ghost predicate PcOk(c: Config, db: Db, pc: Pc) {
    && (pc.FailEmpty? ==> c.pipeline(pc.r) == [])
    && (pc.Lock? || InClaim(pc) ==> c.pipeline(pc.r) != [])
    && (Owned(pc).Some? ==> Launched(c, db, pc.r))
    && (RowOf(pc).Some? ==> RowOf(pc).value < |db.rows| && RowFits(db, pc.r, db.rows[RowOf(pc).value]))
    && (pc.Gate? || pc.Start? ==> !db.rows[pc.i].started)
    && (pc.Exec? || pc.Drive? || pc.Check? || pc.RecoverRow? || pc.RecoverRun? ==> db.rows[pc.i].started)
    && (pc.GetStageRuns? ==> OnlySeeds(db.rows, pc.r))
    && (pc.ReadMax? ==> CauseOk(c, db.rows, pc.r, pc.s, pc.cause))
    && (pc.Insert? ==> CauseOk(c, db.rows, pc.r, pc.s, pc.cause) && InsertFits(db.rows, pc.r, pc.s, pc.n, pc.cause))
    && (pc.Finish? ==> pc.final in {Completed, Failed, Blocked, Cancelled})
    && (pc.Complete? ==> pc.status in {RowCompleted, RowFailed})
    && (pc.Complete? && pc.after.ThenFinish? ==> pc.after.status == Failed)
  }

  ghost predicate OnlySeeds(rows: seq<StageRun>, r: RunId) {
    forall j | 0 <= j < |rows| && rows[j].run == r :: rows[j].cause == Seed && !rows[j].started
  }

  ghost predicate RowFits(db: Db, r: RunId, row: StageRun) {
    row.run == r && RetryBelow(db.rows, r, row.stage, row.attempt)
  }

  ghost predicate InsertFits(rows: seq<StageRun>, r: RunId, stage: StageId, n: nat, cause: Cause) {
    && (cause.Retry? ==> cause.failed <= n)
    && (forall j | 0 <= j < |rows| && rows[j].run == r && rows[j].stage == stage && rows[j].cause != Seed ::
          rows[j].attempt <= n)
  }

  /** No row of the run is running except, possibly, the one the activation is at. */
  ghost predicate OnlyOwnRow(db: Db, pc: Pc) {
    Owned(pc).Some? ==>
      forall i | 0 <= i < |db.rows| && db.rows[i].run == pc.r && db.rows[i].status == RowRunning ::
        MayRun(pc) && pc.i == i
  }

  // ---------------------------------------------------------------- frames

  /** `db'` follows `db` by a step that concerns run `mine` only (`None`: a step from outside).
      Outside steps append fresh seed rows and turn statuses to cancelled. */
  ghost predicate Frame(db: Db, db': Db, mine: Option<RunId>) {
    && |db.rows| <= |db'.rows|
    && (forall i :: 0 <= i < |db.rows| ==> RowFrame(db.rows[i], db'.rows[i], mine))
    && (forall i | |db.rows| <= i < |db'.rows| :: mine == Some(db'.rows[i].run) || FreshSeed(db', db'.rows[i]))
    && (forall r | r in db.runs ::
          r in db'.runs && (mine != Some(r) && db.runs[r] != Pending ==> db'.runs[r] != Pending))
  }

  predicate FreshSeed(db: Db, row: StageRun) {
    row.cause == Seed && row.status == RowPending && !row.started && row.run in db.runs && 1 <= row.attempt
  }

  predicate RowFrame(a: StageRun, b: StageRun, mine: Option<RunId>) {
    && a.run == b.run && a.stage == b.stage && a.attempt == b.attempt && a.cause == b.cause
    && (mine == Some(a.run) || a.started == b.started)
    && (mine == Some(a.run) || a.status == b.status || b.status == RowCancelled)
  }

  /** What an activation relies on survives every step that is not about its own run. */
  lemma FrameKeepsPc(c: Config, db: Db, db': Db, mine: Option<RunId>, pc: Pc)
    requires Frame(db, db', mine) && PcOk(c, db, pc) && OnlyOwnRow(db, pc)
    requires Owned(pc).None? || mine != Owned(pc)
    ensures PcOk(c, db', pc) && OnlyOwnRow(db', pc)
  {
    FrameKeepsOwnRow(db, db', mine, pc);
    hide OnlyOwnRow, CauseOk, RetryBelow, RowFits;
    if Owned(pc).Some? {
      if pc.ReadMax? || pc.Insert? {
        FrameKeepsCause(c, db, db', mine, pc.r, pc.s, pc.cause);
      } else if RowOf(pc).Some? {
        FrameKeepsRow(db, db', mine, pc.r, RowOf(pc).value);
      }
    }
  }

  lemma FrameKeepsRow(db: Db, db': Db, mine: Option<RunId>, r: RunId, i: nat)
    requires Frame(db, db', mine) && mine != Some(r) && i < |db.rows| && RowFits(db, r, db.rows[i])
    ensures RowFits(db', r, db'.rows[i])
  {
    FrameKeepsRetry(db, db', mine, r);
  }

  lemma FrameKeepsCause(c: Config, db: Db, db': Db, mine: Option<RunId>, r: RunId, stage: StageId, cause: Cause)
    requires Frame(db, db', mine) && mine != Some(r) && CauseOk(c, db.rows, r, stage, cause)
    ensures CauseOk(c, db'.rows, r, stage, cause)
  {
    FrameKeepsRetry(db, db', mine, r);
    if cause.Retry? {
      var j :| 0 <= j < |db.rows| && db.rows[j].run == r && db.rows[j].stage == stage && db.rows[j].attempt == cause.failed;
      assert db'.rows[j].attempt == cause.failed;
    }
  }

  lemma FrameKeepsOwnRow(db: Db, db': Db, mine: Option<RunId>, pc: Pc)
    requires Frame(db, db', mine) && OnlyOwnRow(db, pc)
    requires Owned(pc).None? || mine != Owned(pc)
    ensures OnlyOwnRow(db', pc)
  {
  }

  lemma FrameKeepsRetry(db: Db, db': Db, mine: Option<RunId>, r: RunId)
    requires Frame(db, db', mine) && mine != Some(r)
    ensures forall stage, n :: RetryBelow(db.rows, r, stage, n) ==> RetryBelow(db'.rows, r, stage, n)
  {
    forall stage, n | RetryBelow(db.rows, r, stage, n)
      ensures RetryBelow(db'.rows, r, stage, n)
    {
      forall j | 0 <= j < |db'.rows| && IsRetry(db'.rows[j], r, stage)
        ensures db'.rows[j].cause.failed < n
      {
        assert j < |db.rows| && IsRetry(db.rows[j], r, stage);
      }
    }
  }

  // ---------------------------------------------------------------- steps and the tables

  lemma OutsideData(c: Config, db: Db, db': Db)
    requires Frame(db, db', None) && DataOk(c, db)
    ensures DataOk(c, db')
  {
    forall i | 0 <= i < |db'.rows|
      ensures RowOk(c, db', db'.rows[i])
    {
      if i < |db.rows| {
        assert RowOk(c, db, db.rows[i]) && RowFrame(db.rows[i], db'.rows[i], None);
        FrameKeepsRetry(db, db', None, db.rows[i].run);
      }
    }
  }

  /** A step of an activation: the tables stay in order, only its own run is concerned, and the
      activation can rely on them at its next await. */
  ghost predicate GoodStep(c: Config, db: Db, pc: Pc, db': Db, m: Move)
    requires Handled(pc).Some?
  {
    && DataOk(c, db')
    && Frame(db, db', Some(pc.r))
    && (m.Stay? ==> db' == db)
    && (db' == db || Owned(pc).Some? || pc.Commit? || pc.FailEmpty?)
    && (forall q | q in db.runs && (q != pc.r || !(pc.FailEmpty? || pc.Commit? || pc.Finish?)) ::
          db'.runs[q] == db.runs[q])
    && (m.At? ==> PcOk(c, db', m.pc) && OnlyOwnRow(db', m.pc))
    && (m.At? && Handled(m.pc).Some? ==> m.pc.r == pc.r)
    && (m.At? && Owned(m.pc).Some? ==> Owned(pc).Some? || pc.Commit?)
  }

  lemma SetRunData(c: Config, db: Db, r: RunId, status: RunStatus)
    requires DataOk(c, db) && status != Pending
    ensures DataOk(c, SetRun(db, r, status)) && Frame(db, SetRun(db, r, status), Some(r))
  {
    var db' := SetRun(db, r, status);
    forall i | 0 <= i < |db'.rows|
      ensures RowOk(c, db', db'.rows[i])
    {
      assert RowOk(c, db, db.rows[i]);
    }
  }

  lemma CommitGood(c: Config, db: Db, pc: Pc)
    requires DataOk(c, db) && PcOk(c, db, pc) && pc.Commit? && IsPending(db, pc.r)
    ensures GoodStep(c, db, pc, SetRun(db, pc.r, Running), At(GetStageRuns(pc.r)))
  {
    SetRunData(c, db, pc.r, Running);
    forall j | 0 <= j < |db.rows| && db.rows[j].run == pc.r
      ensures db.rows[j].cause == Seed && !db.rows[j].started
    {
      assert RowOk(c, db, db.rows[j]);
    }
  }

  lemma SeedGood(c: Config, db: Db, pc: Pc)
    requires DataOk(c, db) && PcOk(c, db, pc) && OnlyOwnRow(db, pc) && pc.GetStageRuns?
    ensures var (db', m) := Handle(c, db, true, pc); GoodStep(c, db, pc, db', m)
  {
  }

  lemma HandleGood(c: Config, db: Db, lockFree: bool, pc: Pc)
    requires DataOk(c, db) && PcOk(c, db, pc) && OnlyOwnRow(db, pc) && InHandle(pc)
    requires pc.Commit? ==> IsPending(db, pc.r)
    ensures var (db', m) := Handle(c, db, lockFree, pc); GoodStep(c, db, pc, db', m)
  {
    if pc.Commit? {
      CommitGood(c, db, pc);
    } else if pc.GetStageRuns? {
      SeedGood(c, db, pc);
    } else if pc.FailEmpty? {
      SetRunData(c, db, pc.r, Failed);
    } else {
      ReadOnlyGood(c, db, lockFree, pc);
    }
  }

  lemma ReadOnlyGood(c: Config, db: Db, lockFree: bool, pc: Pc)
    requires DataOk(c, db) && PcOk(c, db, pc) && InHandle(pc)
    requires !pc.Commit? && !pc.GetStageRuns? && !pc.FailEmpty?
    ensures var (db', m) := Handle(c, db, lockFree, pc); GoodStep(c, db, pc, db', m)
  {
    hide DataOk, RunningCount, OnlySeeds, CauseOk, RowFits, FirstPending, InsertFits, Launched;
  }

  // launchStage

  lemma InsertData(c: Config, db: Db, pc: Pc)
    requires DataOk(c, db) && PcOk(c, db, pc) && OnlyOwnRow(db, pc) && pc.Insert?
    ensures var db' := AddRow(db, pc.r, pc.s, pc.n + 1, pc.cause);
            DataOk(c, db') && RetryBelow(db'.rows, pc.r, pc.s, pc.n + 1)
  {
    var db' := AddRow(db, pc.r, pc.s, pc.n + 1, pc.cause);
    forall i | 0 <= i < |db.rows|
      ensures RowOk(c, db, db.rows[i]) && (IsRetry(db.rows[i], pc.r, pc.s) ==> db.rows[i].cause.failed <= pc.n)
    {
    }
    assert RetryBelow(db'.rows, pc.r, pc.s, pc.n + 1);
    forall i | 0 <= i < |db'.rows|
      ensures RowOk(c, db', db'.rows[i])
    {
      if i < |db.rows| {
        var row := db.rows[i];
        assert row.status == RowRunning ==> row.run != pc.r;
      }
    }
  }

  lemma InsertGood(c: Config, db: Db, pc: Pc)
    requires DataOk(c, db) && PcOk(c, db, pc) && OnlyOwnRow(db, pc) && pc.Insert?
    ensures GoodStep(c, db, pc, AddRow(db, pc.r, pc.s, pc.n + 1, pc.cause), At(Gate(pc.r, |db.rows|)))
  {
    InsertData(c, db, pc);
    hide DataOk, RetryBelow;
  }

  lemma StartGood(c: Config, db: Db, pc: Pc)
    requires DataOk(c, db) && PcOk(c, db, pc) && OnlyOwnRow(db, pc) && pc.Start?
    ensures GoodStep(c, db, pc, SetRow(db, pc.i, RowRunning), At(Exec(pc.r, pc.i)))
  {
    StatusFrame(c, db, SetRow(db, pc.i, RowRunning), pc.r);
  }

  /** Rewriting statuses of one run's rows leaves the relaunch records alone. */
  lemma StatusFrame(c: Config, db: Db, db': Db, r: RunId)
    requires |db'.rows| == |db.rows|
    requires forall i | 0 <= i < |db.rows| :: RowFrame(db.rows[i], db'.rows[i], Some(r))
    ensures forall q, stage, n :: RetryBelow(db.rows, q, stage, n) == RetryBelow(db'.rows, q, stage, n)
  {
    forall q, stage, n
      ensures RetryBelow(db.rows, q, stage, n) == RetryBelow(db'.rows, q, stage, n)
    {
      assert forall j | 0 <= j < |db.rows| :: IsRetry(db.rows[j], q, stage) == IsRetry(db'.rows[j], q, stage);
    }
  }

  lemma ReadMaxGood(c: Config, db: Db, pc: Pc)
    requires DataOk(c, db) && PcOk(c, db, pc) && OnlyOwnRow(db, pc) && pc.ReadMax?
    ensures GoodStep(c, db, pc, db, At(Insert(pc.r, pc.s, MaxAttempt(db.rows, pc.r, pc.s), pc.cause)))
  {
    hide DataOk;
    MaxAttemptBounds(db.rows, pc.r, pc.s);
  }

  lemma LaunchGood(c: Config, db: Db, pc: Pc, k: Choice)
    requires DataOk(c, db) && PcOk(c, db, pc) && OnlyOwnRow(db, pc) && InLaunch(pc)
    ensures var (db', m) := Launch(c, db, pc, k); GoodStep(c, db, pc, db', m)
  {
    if pc.ReadMax? {
      ReadMaxGood(c, db, pc);
    } else if pc.Insert? {
      InsertGood(c, db, pc);
    } else if pc.Start? {
      StartGood(c, db, pc);
    } else if pc.Gate? {
      GateGood(c, db, pc, k);
    } else {
      DriveGood(c, db, pc, k);
    }
  }

  lemma DriveGood(c: Config, db: Db, pc: Pc, k: Choice)
    requires DataOk(c, db) && PcOk(c, db, pc) && OnlyOwnRow(db, pc) && (pc.Exec? || pc.Drive? || pc.Check?)
    ensures var (db', m) := Launch(c, db, pc, k); GoodStep(c, db, pc, db', m)
  {
    hide DataOk, RetryBelow, CauseOk, InsertFits, OnlySeeds, RowFits, Launched;
  }

  lemma GateGood(c: Config, db: Db, pc: Pc, k: Choice)
    requires DataOk(c, db) && PcOk(c, db, pc) && OnlyOwnRow(db, pc) && pc.Gate?
    ensures var (db', m) := Launch(c, db, pc, k); GoodStep(c, db, pc, db', m)
  {
    var stage := db.rows[pc.i].stage;
    if stage in c.stages && c.stages[stage].held {
      HoldGood(c, db, pc);
    } else {
      hide DataOk, RetryBelow, CauseOk, MaxAttempt, InsertFits, OnlySeeds, RowFits, Launched;
    }
  }

  lemma HoldGood(c: Config, db: Db, pc: Pc)
    requires DataOk(c, db) && PcOk(c, db, pc) && OnlyOwnRow(db, pc) && pc.Gate?
    ensures GoodStep(c, db, pc, SetRow(db, pc.i, RowPending), Done)
  {
    StatusFrame(c, db, SetRow(db, pc.i, RowPending), pc.r);
    hide RetryBelow, Launched;
  }

  // completeStageRun and what follows it

  lemma CompleteData(c: Config, db: Db, i: nat, status: RowStatus)
    requires DataOk(c, db) && i < |db.rows| && status in {RowCompleted, RowFailed}
    ensures var db' := CompleteRow(db, i, status);
            && DataOk(c, db') && Frame(db, db', Some(db.rows[i].run)) && db'.runs == db.runs
            && db'.rows[i].status != RowRunning && |db'.rows| == |db.rows|
            && (forall j | 0 <= j < |db.rows| && j != i :: db'.rows[j] == db.rows[j])
            && db'.rows[i].started == db.rows[i].started
            && (forall q, stage, n :: RetryBelow(db.rows, q, stage, n) == RetryBelow(db'.rows, q, stage, n))
  {
    var db' := CompleteRow(db, i, status);
    StatusFrame(c, db, db', db.rows[i].run);
    forall j | 0 <= j < |db'.rows|
      ensures RowOk(c, db', db'.rows[j])
    {
      hide RetryBelow;
      assert RowOk(c, db, db.rows[j]);
    }
    hide RetryBelow, RowOk;
  }

  lemma RetryingGood(c: Config, db: Db, db': Db, r: RunId, i: nat)
    requires i < |db.rows| == |db'.rows| && RowFits(db, r, db.rows[i]) && 1 <= db.rows[i].attempt
    requires Launched(c, db', r) && RowFrame(db.rows[i], db'.rows[i], Some(r))
    requires forall q, stage, n :: RetryBelow(db.rows, q, stage, n) == RetryBelow(db'.rows, q, stage, n)
    ensures PcOk(c, db', Retrying(c, r, db.rows[i])) && Owned(Retrying(c, r, db.rows[i])) == Some(r)
    ensures !MayRun(Retrying(c, r, db.rows[i]))
  {
  }

  lemma SettleGood(c: Config, db: Db, pc: Pc, k: Choice)
    requires DataOk(c, db) && PcOk(c, db, pc) && OnlyOwnRow(db, pc)
    requires Handled(pc).Some? && !InHandle(pc) && !InLaunch(pc)
    ensures var (db', m) := Settle(c, db, pc, k); GoodStep(c, db, pc, db', m)
  {
    if pc.Finish? {
      SetRunData(c, db, pc.r, pc.final);
      hide DataOk, Frame, Launched;
    } else if pc.RecoverRun? || pc.RecoverRow? {
      RecoverGood(c, db, pc, k);
    } else if pc.Complete? {
      CompleteGood(c, db, pc, k);
    } else {
      hide DataOk;
    }
  }

  lemma RecoverGood(c: Config, db: Db, pc: Pc, k: Choice)
    requires DataOk(c, db) && PcOk(c, db, pc) && OnlyOwnRow(db, pc) && (pc.RecoverRun? || pc.RecoverRow?)
    ensures var (db', m) := Settle(c, db, pc, k); GoodStep(c, db, pc, db', m)
  {
    if pc.RecoverRun? {
      assert RowOk(c, db, db.rows[pc.i]);
      hide DataOk, RetryBelow, Retrying;
      RetryingGood(c, db, db, pc.r, pc.i);
    } else {
      CloseGood(c, db, pc);
    }
  }

  lemma CloseGood(c: Config, db: Db, pc: Pc)
    requires DataOk(c, db) && PcOk(c, db, pc) && OnlyOwnRow(db, pc) && pc.RecoverRow?
    ensures GoodStep(c, db, pc, CompleteRow(db, pc.i, RowFailed), At(RecoverRun(pc.r, pc.i)))
  {
    CompleteData(c, db, pc.i, RowFailed);
    hide DataOk, RetryBelow, CompleteRow;
  }

  lemma FollowGood(c: Config, db: Db, db': Db, r: RunId, i: nat, after: After, gone: bool)
    requires i < |db.rows| == |db'.rows| && RowFits(db, r, db.rows[i]) && 1 <= db.rows[i].attempt
    requires Launched(c, db', r) && RowFrame(db.rows[i], db'.rows[i], Some(r))
    requires forall q, stage, n :: RetryBelow(db.rows, q, stage, n) == RetryBelow(db'.rows, q, stage, n)
    requires after.ThenRoute? ==> db.rows[i].stage in c.stages
    requires after.ThenFinish? ==> after.status == Failed
    ensures var pc := Follow(c, r, db.rows[i], after, gone); PcOk(c, db', pc) && Owned(pc) == Some(r) && !MayRun(pc)
  {
    if after.ThenRetry? {
      RetryingGood(c, db, db', r, i);
    }
  }

  lemma CompleteGood(c: Config, db: Db, pc: Pc, k: Choice)
    requires DataOk(c, db) && PcOk(c, db, pc) && OnlyOwnRow(db, pc) && pc.Complete?
    ensures var (db', m) := Settle(c, db, pc, k); GoodStep(c, db, pc, db', m)
  {
    hide Follow, RetryBelow, Retrying;
    var row := db.rows[pc.i];
    if pc.after.ThenRoute? && (!k.Subject? || row.stage !in c.stages) {
    } else {
      assert RowOk(c, db, row);
      CompleteData(c, db, pc.i, pc.status);
      FollowGood(c, db, CompleteRow(db, pc.i, pc.status), pc.r, pc.i, pc.after, k.Subject? && k.gone);
    }
  }

  lemma ResumeGood(c: Config, db: Db, lockFree: bool, pc: Pc, k: Choice)
    requires DataOk(c, db) && PcOk(c, db, pc) && OnlyOwnRow(db, pc) && Handled(pc).Some?
    requires pc.Commit? ==> IsPending(db, pc.r)
    ensures var (db', m) := Resume(c, db, lockFree, pc, k); GoodStep(c, db, pc, db', m)
  {
    hide Handle, Launch, Settle, GoodStep;
    if InHandle(pc) {
      HandleGood(c, db, lockFree, pc);
    } else if InLaunch(pc) {
      LaunchGood(c, db, pc, k);
    } else {
      SettleGood(c, db, pc, k);
    }
  }

  // ---------------------------------------------------------------- the whole machine

  ghost predicate TaskOk(c: Config, db: Db, inFlight: set<RunId>, task: Task) {
    && PcOk(c, db, task.pc) && OnlyOwnRow(db, task.pc)
    && (task.pc.Commit? ==> IsPending(db, task.pc.r))
    && (InHandle(task.pc) ==> !task.driver.ByRecovery?)
    && (Flying(task).Some? ==> task.pc.r in inFlight)
  }

  /** The run an activation of handleNewRun keeps in the inFlight set. */
  function Flying(task: Task): Option<RunId> {
    if task.driver.ByRecovery? then None else Handled(task.pc)
  }

  /** Two activations never drive the same run, nor handle it from an event or a drain. */
  ghost predicate Apart(a: Task, b: Task) {
    && (Owned(a.pc).Some? ==> Owned(a.pc) != Owned(b.pc))
    && (Flying(a).Some? ==> Flying(a) != Flying(b))
  }

  ghost predicate AllApart(tasks: map<nat, Task>) {
    forall p, q :: p in tasks && q in tasks && p != q ==> Apart(tasks[p], tasks[q])
  }

  /** A row recovery has still to visit belongs to a run nobody drives. */
  ghost predicate StaleOk(c: Config, db: Db, stale: set<nat>, i: nat) {
    && i < |db.rows| && db.rows[i].started && RowFits(db, db.rows[i].run, db.rows[i])
    && Launched(c, db, db.rows[i].run)
    && (forall j :: 0 <= j < |db.rows| && db.rows[j].run == db.rows[i].run && db.rows[j].status == RowRunning ==> j == i)
    && (forall j :: j in stale && j < |db.rows| && db.rows[j].run == db.rows[i].run ==> j == i)
  }

  ghost predicate Undriven(db: Db, stale: set<nat>, pc: Pc) {
    Owned(pc).Some? ==> forall i :: i in stale && i < |db.rows| ==> db.rows[i].run != pc.r
  }

  ghost predicate RunInv(c: Config, s: State) {
    && LockInv(s) && DataOk(c, s.db) && AllApart(s.tasks)
    && (forall t :: t in s.tasks ==> TaskOk(c, s.db, s.inFlight, s.tasks[t]))
    && (forall t :: t in s.tasks ==> Undriven(s.db, s.stale, s.tasks[t].pc))
    && (forall i :: i in s.stale ==> StaleOk(c, s.db, s.stale, i))
    && (forall r :: r in s.seeds ==> r in s.db.runs)
  }

  /** A step about run `mine` keeps what the other activations and the stale rows rely on. */
  lemma OtherTask(c: Config, db: Db, pc: Pc, db': Db, m: Move, inFlight: set<RunId>, task: Task)
    requires Handled(pc).Some? && PcOk(c, db, pc) && GoodStep(c, db, pc, db', m)
    requires pc.Commit? ==> IsPending(db, pc.r) && !InClaim(task.pc)
    requires TaskOk(c, db, inFlight, task) && (Owned(pc).Some? ==> Owned(pc) != Owned(task.pc))
    ensures TaskOk(c, db', inFlight, task)
  {
    hide GoodStep, DataOk;
    if Owned(task.pc) == Some(pc.r) {
      GoodSame(c, db, pc, db', m);
    } else {
      GoodFrame(c, db, pc, db', m);
      FrameKeepsPc(c, db, db', Some(pc.r), task.pc);
    }
    CommitKept(c, db, pc, db', m, task.pc);
  }

  lemma GoodSame(c: Config, db: Db, pc: Pc, db': Db, m: Move)
    requires Handled(pc).Some? && PcOk(c, db, pc) && GoodStep(c, db, pc, db', m)
    requires Owned(pc).None? && Launched(c, db, pc.r) && (pc.Commit? ==> IsPending(db, pc.r))
    ensures db' == db
  {
  }

  lemma GoodFrame(c: Config, db: Db, pc: Pc, db': Db, m: Move)
    requires Handled(pc).Some? && GoodStep(c, db, pc, db', m)
    ensures Frame(db, db', Some(pc.r)) && DataOk(c, db')
  {
  }

  lemma CommitKept(c: Config, db: Db, pc: Pc, db': Db, m: Move, other: Pc)
    requires Handled(pc).Some? && PcOk(c, db, pc) && GoodStep(c, db, pc, db', m)
    requires PcOk(c, db, other) && (other.Commit? ==> IsPending(db, other.r))
    requires pc.Commit? ==> !InClaim(other)
    ensures other.Commit? ==> IsPending(db', other.r)
  {
  }

  lemma OtherStale(c: Config, db: Db, pc: Pc, db': Db, m: Move, stale: set<nat>, i: nat)
    requires Handled(pc).Some? && PcOk(c, db, pc) && GoodStep(c, db, pc, db', m)
    requires pc.Commit? ==> IsPending(db, pc.r)
    requires StaleOk(c, db, stale, i) && Undriven(db, stale, pc) && i in stale
    requires forall j :: j in stale ==> j < |db.rows|
    ensures StaleOk(c, db', stale, i)
  {
    if db.rows[i].run == pc.r {
      hide GoodStep, StaleOk;
      GoodSame(c, db, pc, db', m);
    } else {
      hide GoodStep, DataOk;
      GoodFrame(c, db, pc, db', m);
      FrameKeepsRetry(db, db', Some(pc.r), db.rows[i].run);
    }
  }

  // an activation resumes inside a run

  ghost predicate ActPre(c: Config, s: State, t: nat, db': Db, m: Move) {
    && RunInv(c, s) && t in s.tasks && Handled(s.tasks[t].pc).Some?
    && GoodStep(c, s.db, s.tasks[t].pc, db', m) && LockMove(s.lock.None?, s.tasks[t].pc, m)
    && (m.At? ==> (InHandle(m.pc) ==> InHandle(s.tasks[t].pc)) && (m.pc.Commit? ==> IsPending(db', m.pc.r)))
    && (m.At? ==> Handled(m.pc).Some?)
  }

  lemma ActTask(c: Config, s: State, t: nat, db': Db, m: Move, q: nat)
    requires ActPre(c, s, t, db', m) && q in s.tasks
    ensures var s' := Apply(s, t, db', m); TaskOk(c, db', s'.inFlight, s'.tasks[q])
  {
    var pc := s.tasks[t].pc;
    assert TaskOk(c, s.db, s.inFlight, s.tasks[t]) && TaskOk(c, s.db, s.inFlight, s.tasks[q]);
    if q == t {
      OwnTask(c, s, t, db', m);
    } else {
      assert Apart(s.tasks[t], s.tasks[q]);
      hide GoodStep, PcOk, OnlyOwnRow, DataOk;
      OtherTask(c, s.db, pc, db', m, s.inFlight, s.tasks[q]);
    }
  }

  lemma OwnTask(c: Config, s: State, t: nat, db': Db, m: Move)
    requires ActPre(c, s, t, db', m) && TaskOk(c, s.db, s.inFlight, s.tasks[t])
    ensures var s' := Apply(s, t, db', m); TaskOk(c, db', s'.inFlight, s'.tasks[t])
  {
    hide DataOk, Frame, RunInv;
  }

  lemma ActApart(c: Config, s: State, t: nat, db': Db, m: Move)
    requires ActPre(c, s, t, db', m)
    ensures AllApart(Apply(s, t, db', m).tasks)
  {
    var s' := Apply(s, t, db', m);
    forall p, q | p in s'.tasks && q in s'.tasks && p != q
      ensures Apart(s'.tasks[p], s'.tasks[q])
    {
      assert TaskOk(c, s.db, s.inFlight, s.tasks[p]) && TaskOk(c, s.db, s.inFlight, s.tasks[q]);
      assert Apart(s.tasks[p], s.tasks[q]) && Apart(s.tasks[q], s.tasks[p]);
      ApartKept(c, s.db, s.tasks[t], db', m, if p == t then s.tasks[q] else s.tasks[p]);
    }
  }

  /** A run just claimed was pending, so nobody was driving it. */
  lemma ApartKept(c: Config, db: Db, task: Task, db': Db, m: Move, other: Task)
    requires Handled(task.pc).Some? && GoodStep(c, db, task.pc, db', m)
    requires task.pc.Commit? ==> IsPending(db, task.pc.r)
    requires PcOk(c, db, other.pc) && (m.At? ==> Handled(m.pc).Some?)
    ensures Apart(task, other) && Apart(other, task) ==>
              var task' := Task(task.driver, PcAfter(task, m)); Apart(task', other) && Apart(other, task')
  {
  }

  lemma ActStale(c: Config, s: State, t: nat, db': Db, m: Move)
    requires ActPre(c, s, t, db', m)
    ensures forall i :: i in s.stale ==> StaleOk(c, db', s.stale, i)
  {
    assert TaskOk(c, s.db, s.inFlight, s.tasks[t]);
    forall i | i in s.stale
      ensures StaleOk(c, db', s.stale, i)
    {
      hide GoodStep;
      OtherStale(c, s.db, s.tasks[t].pc, db', m, s.stale, i);
    }
  }

  lemma ActUndriven(c: Config, s: State, t: nat, db': Db, m: Move, q: nat)
    requires ActPre(c, s, t, db', m) && q in s.tasks
    ensures Undriven(db', s.stale, Apply(s, t, db', m).tasks[q].pc)
  {
    assert TaskOk(c, s.db, s.inFlight, s.tasks[t]) && Undriven(s.db, s.stale, s.tasks[q].pc);
    forall i | i in s.stale
      ensures i < |s.db.rows| && db'.rows[i].run == s.db.rows[i].run && Launched(c, s.db, s.db.rows[i].run)
    {
      assert StaleOk(c, s.db, s.stale, i);
    }
    hide DataOk, PcOk, StaleOk, RunInv, Frame;
  }

  lemma ResumeShape(c: Config, db: Db, lockFree: bool, pc: Pc, k: Choice)
    requires Handled(pc).Some?
    ensures var (db', m) := Resume(c, db, lockFree, pc, k);
            && (m.At? ==> Handled(m.pc).Some? && (InHandle(m.pc) ==> InHandle(pc)))
            && (m.At? && m.pc.Commit? ==> IsPending(db', m.pc.r))
  {
    hide Handle, Launch, Settle;
    if InHandle(pc) {
      HandleShape(c, db, lockFree, pc);
    } else if RowOf(pc).Some? && |db.rows| <= RowOf(pc).value {
    } else if InLaunch(pc) {
      LaunchShape(c, db, pc, k);
    } else {
      SettleShape(c, db, pc, k);
    }
  }

  lemma HandleShape(c: Config, db: Db, lockFree: bool, pc: Pc)
    requires InHandle(pc)
    ensures var (db', m) := Handle(c, db, lockFree, pc);
            && (m.At? ==> Handled(m.pc).Some?)
            && (m.At? && m.pc.Commit? ==> IsPending(db', m.pc.r))
  {
    hide RunningCount;
  }

  lemma LaunchShape(c: Config, db: Db, pc: Pc, k: Choice)
    requires InLaunch(pc) && (RowOf(pc).Some? ==> RowOf(pc).value < |db.rows|)
    ensures var (_, m) := Launch(c, db, pc, k); m.At? ==> Handled(m.pc).Some? && !InHandle(m.pc)
  {
    hide MaxAttempt;
  }

  lemma SettleShape(c: Config, db: Db, pc: Pc, k: Choice)
    requires Handled(pc).Some? && !InHandle(pc) && !InLaunch(pc) && (RowOf(pc).Some? ==> RowOf(pc).value < |db.rows|)
    ensures var (_, m) := Settle(c, db, pc, k); m.At? ==> Handled(m.pc).Some? && !InHandle(m.pc)
  {
    hide RouteTo;
  }

  lemma ApplyInv(c: Config, s: State, t: nat, db': Db, m: Move)
    requires ActPre(c, s, t, db', m)
    ensures RunInv(c, Apply(s, t, db', m))
  {
    hide PcOk, OnlyOwnRow, StaleOk, Frame;
    LockApply(s, t, db', m);
    ActApart(c, s, t, db', m);
    ActStale(c, s, t, db', m);
    GoodFrame(c, s.db, s.tasks[t].pc, db', m);
    GoodRuns(c, s.db, s.tasks[t].pc, db', m);
    hide DataOk, LockMove, LockInv, AllApart, TaskOk, GoodStep;
    forall q | q in s.tasks
      ensures TaskOk(c, db', Apply(s, t, db', m).inFlight, Apply(s, t, db', m).tasks[q])
      ensures Undriven(db', s.stale, Apply(s, t, db', m).tasks[q].pc)
    {
      ActTask(c, s, t, db', m, q);
      ActUndriven(c, s, t, db', m, q);
    }
  }

  lemma GoodRuns(c: Config, db: Db, pc: Pc, db': Db, m: Move)
    requires Handled(pc).Some? && GoodStep(c, db, pc, db', m)
    ensures forall r :: r in db.runs ==> r in db'.runs
  {
  }

  lemma ActInv(c: Config, s: State, t: nat, k: Choice)
    requires RunInv(c, s) && t in s.tasks && Handled(s.tasks[t].pc).Some?
    ensures var (db', m) := Resume(c, s.db, s.lock.None?, s.tasks[t].pc, k); RunInv(c, Apply(s, t, db', m))
  {
    hide Resume, DataOk, PcOk, OnlyOwnRow, StaleOk, LockMove, LockInv, GoodStep, AllApart, Apply;
    var pc := s.tasks[t].pc;
    assert TaskOk(c, s.db, s.inFlight, s.tasks[t]);
    ResumeGood(c, s.db, s.lock.None?, pc, k);
    ResumeShape(c, s.db, s.lock.None?, pc, k);
    LockResume(c, s.db, s.lock.None?, pc, k);
    var (db', m) := Resume(c, s.db, s.lock.None?, pc, k);
    ApplyInv(c, s, t, db', m);
  }

  // an activation starts, takes up its next run, or ends

  /** `task` drives nothing; at most it has just entered inFlight with a run that was not there. */
  ghost predicate FreshTask(inFlight: set<RunId>, inFlight': set<RunId>, task: Task) {
    Handled(task.pc).Some? ==>
      task.pc.GetRun? && !task.driver.ByRecovery? && task.pc.r in inFlight' - inFlight
  }

  lemma SetInv(c: Config, s: State, s': State, t: nat)
    requires RunInv(c, s) && (t in s.tasks ==> Handled(s.tasks[t].pc).None?)
    requires s'.db == s.db && s'.lock == s.lock && s'.stale == s.stale && s'.seeds == s.seeds
    requires s.inFlight <= s'.inFlight
    requires t in s'.tasks && s'.tasks == s.tasks[t := s'.tasks[t]] && FreshTask(s.inFlight, s'.inFlight, s'.tasks[t])
    ensures RunInv(c, s')
  {
    hide DataOk, StaleOk, PcOk, OnlyOwnRow;
    assert TaskOk(c, s.db, s'.inFlight, s'.tasks[t]) by { FreshOk(c, s.db, s.inFlight, s'.inFlight, s'.tasks[t]); }
    FreshApart(c, s, t, s'.inFlight, s'.tasks[t]);
    hide TaskOk, FreshTask, Apart, Undriven;
    assert AllApart(s'.tasks) && LockInv(s');
    assert Undriven(s'.db, s'.stale, s'.tasks[t].pc);
    forall q | q in s'.tasks
      ensures TaskOk(c, s'.db, s'.inFlight, s'.tasks[q])
    {
      if q != t {
        MoreInFlight(c, s.db, s.inFlight, s'.inFlight, s.tasks[q]);
      }
    }
  }

  lemma MoreInFlight(c: Config, db: Db, inFlight: set<RunId>, inFlight': set<RunId>, task: Task)
    requires TaskOk(c, db, inFlight, task) && inFlight <= inFlight'
    ensures TaskOk(c, db, inFlight', task)
  {
  }

  lemma FreshApart(c: Config, s: State, t: nat, inFlight': set<RunId>, task: Task)
    requires RunInv(c, s) && FreshTask(s.inFlight, inFlight', task)
    ensures forall q | q in s.tasks && q != t :: Apart(task, s.tasks[q]) && Apart(s.tasks[q], task)
    ensures Undriven(s.db, s.stale, task.pc) && !InClaim(task.pc)
  {
    forall q | q in s.tasks && q != t
      ensures Apart(task, s.tasks[q]) && Apart(s.tasks[q], task)
    {
      assert TaskOk(c, s.db, s.inFlight, s.tasks[q]);
    }
  }

  lemma FreshOk(c: Config, db: Db, inFlight: set<RunId>, inFlight': set<RunId>, task: Task)
    requires FreshTask(inFlight, inFlight', task)
    ensures TaskOk(c, db, inFlight', task)
  {
  }

  lemma TakeShape(c: Config, s: State, t: nat, k: Choice)
    requires t in s.tasks && Handled(s.tasks[t].pc).None?
    requires !(s.tasks[t] == Task(ByRecovery, Idle) && Visits(s, k))
    ensures var s' := NextItem(c, s, t, k);
            && s'.db == s.db && s'.stale == s.stale && s.inFlight <= s'.inFlight
            && FreshTask(s.inFlight, s'.inFlight, s'.tasks[t])
  {
  }

  /** What an activation between two runs can do: end, take up a run, or, in the recovery loop, visit a row. */
  lemma ItemShape(c: Config, s: State, t: nat, k: Choice)
    requires t in s.tasks && Handled(s.tasks[t].pc).None?
    ensures var s' := NextItem(c, s, t, k);
            var pc := s'.tasks[t].pc;
            var visits := s.tasks[t] == Task(ByRecovery, Idle) && Visits(s, k);
            && s' == s.(db := s'.db, tasks := s.tasks[t := s'.tasks[t]], stale := s'.stale, inFlight := s'.inFlight)
            && s'.stale <= s.stale
            && (s'.db == s.db || (visits && s'.db == CompleteRow(s.db, k.row, RowFailed)))
            && (Handled(pc).None? || pc.GetRun?
                || (visits && s'.db == s.db && pc == RecoverRow(s.db.rows[k.row].run, k.row) && k.row !in s'.stale))
  {
  }

  lemma ItemInv(c: Config, s: State, t: nat, k: Choice)
    requires RunInv(c, s) && t in s.tasks && Handled(s.tasks[t].pc).None?
    ensures RunInv(c, NextItem(c, s, t, k))
  {
    if s.tasks[t] == Task(ByRecovery, Idle) && Visits(s, k) {
      VisitInv(c, s, t, k);
    } else {
      hide RunInv, FreshTask;
      TakeShape(c, s, t, k);
      SetInv(c, s, NextItem(c, s, t, k), t);
    }
  }

  // the recovery loop visits a row

  lemma VisitInv(c: Config, s: State, t: nat, k: Choice)
    requires RunInv(c, s) && t in s.tasks && s.tasks[t] == Task(ByRecovery, Idle) && Visits(s, k)
    ensures RunInv(c, NextItem(c, s, t, k))
  {
    var i := k.row;
    var s1 := s.(stale := s.stale - {i});
    DropStale(c, s, i);
    if k.alive {
      assert NextItem(c, s, t, k) == s1.(tasks := s.tasks[t := s.tasks[t]]);
      assert s.tasks[t := s.tasks[t]] == s.tasks;
    } else if s.db.rows[i].stage in c.stages {
      AdoptRow(c, s, s1, t, i);
    } else {
      FailRow(c, s, s1, i);
      assert s.tasks[t := s.tasks[t]] == s.tasks;
    }
  }

  lemma DropStale(c: Config, s: State, i: nat)
    requires RunInv(c, s)
    ensures RunInv(c, s.(stale := s.stale - {i}))
  {
    var stale := s.stale - {i};
    forall j | j in stale
      ensures StaleOk(c, s.db, stale, j)
    {
      assert StaleOk(c, s.db, s.stale, j);
    }
    forall t | t in s.tasks
      ensures Undriven(s.db, stale, s.tasks[t].pc)
    {
      assert Undriven(s.db, s.stale, s.tasks[t].pc);
    }
    hide DataOk, TaskOk, LockInv, AllApart, StaleOk, Undriven;
  }

  ghost predicate Dropped(c: Config, s: State, s1: State, i: nat) {
    RunInv(c, s) && i in s.stale && s1 == s.(stale := s.stale - {i}) && RunInv(c, s1)
  }

  lemma AdoptedOk(c: Config, s: State, s1: State, i: nat)
    requires Dropped(c, s, s1, i)
    ensures i < |s.db.rows|
    ensures var task := Task(ByRecovery, RecoverRow(s.db.rows[i].run, i));
            TaskOk(c, s.db, s.inFlight, task) && Undriven(s.db, s1.stale, task.pc)
  {
    assert StaleOk(c, s.db, s.stale, i);
    hide RunInv, RetryBelow;
  }

  lemma AdoptRow(c: Config, s: State, s1: State, t: nat, i: nat)
    requires Dropped(c, s, s1, i) && t in s.tasks && s.tasks[t] == Task(ByRecovery, Idle)
    ensures i < |s.db.rows|
         && RunInv(c, s1.(tasks := s.tasks[t := Task(ByRecovery, RecoverRow(s.db.rows[i].run, i))]))
  {
    AdoptedOk(c, s, s1, i);
    var task := Task(ByRecovery, RecoverRow(s.db.rows[i].run, i));
    forall q | q in s.tasks && q != t
      ensures Apart(task, s.tasks[q]) && Apart(s.tasks[q], task)
    {
      assert Undriven(s.db, s.stale, s.tasks[q].pc);
    }
    hide DataOk, StaleOk, PcOk, OnlyOwnRow, TaskOk;
  }

  lemma FailRow(c: Config, s: State, s1: State, i: nat)
    requires Dropped(c, s, s1, i)
    ensures RunInv(c, s1.(db := CompleteRow(s.db, i, RowFailed)))
  {
    assert StaleOk(c, s.db, s.stale, i);
    var db' := CompleteRow(s.db, i, RowFailed);
    var r := s.db.rows[i].run;
    CompleteData(c, s.db, i, RowFailed);
    forall q | q in s.tasks
      ensures TaskOk(c, db', s.inFlight, s.tasks[q]) && Undriven(db', s1.stale, s.tasks[q].pc)
    {
      assert Undriven(s.db, s.stale, s.tasks[q].pc);
      FrameKeepsPc(c, s.db, db', Some(r), s.tasks[q].pc);
    }
    forall j | j in s1.stale
      ensures StaleOk(c, db', s1.stale, j)
    {
      assert StaleOk(c, s.db, s.stale, j) && StaleOk(c, s.db, s1.stale, j);
    }
    hide StaleOk, DataOk, PcOk, OnlyOwnRow, TaskOk, Frame;
    var s' := s1.(db := db');
    assert LockInv(s') && AllApart(s'.tasks) && DataOk(c, s'.db);
    assert forall t :: t in s'.tasks ==> TaskOk(c, s'.db, s'.inFlight, s'.tasks[t]);
    assert forall t :: t in s'.tasks ==> Undriven(s'.db, s'.stale, s'.tasks[t].pc);
    assert forall j :: j in s'.stale ==> StaleOk(c, s'.db, s'.stale, j);
  }

  // steps from outside

  lemma OutsideInv(c: Config, s: State, db': Db)
    requires RunInv(c, s) && Frame(s.db, db', None)
    requires forall t :: t in s.tasks && s.tasks[t].pc.Commit? ==> IsPending(db', s.tasks[t].pc.r)
    ensures RunInv(c, s.(db := db'))
  {
    OutsideData(c, s.db, db');
    forall q | q in s.tasks
      ensures TaskOk(c, db', s.inFlight, s.tasks[q])
    {
      FrameKeepsPc(c, s.db, db', None, s.tasks[q].pc);
    }
    forall i | i in s.stale
      ensures StaleOk(c, db', s.stale, i)
    {
      FrameKeepsRetry(s.db, db', None, s.db.rows[i].run);
    }
    hide DataOk, PcOk, OnlyOwnRow, TaskOk, StaleOk;
  }

  lemma ThrowInv(c: Config, s: State, t: nat)
    requires RunInv(c, s) && t in s.tasks
    ensures RunInv(c, Unwind(s, t))
  {
    hide DataOk, StaleOk, PcOk, OnlyOwnRow;
    forall q | q in s.tasks && q != t
      ensures TaskOk(c, s.db, Unwind(s, t).inFlight, s.tasks[q])
    {
      assert Apart(s.tasks[t], s.tasks[q]);
    }
    assert TaskOk(c, s.db, s.inFlight, s.tasks[t]);
    OverOk(c, s.db, Unwind(s, t).inFlight, s.tasks[t].driver);
  }

  lemma OverOk(c: Config, db: Db, inFlight: set<RunId>, driver: Driver)
    ensures TaskOk(c, db, inFlight, Task(driver, Over))
  {
  }

  lemma BootInv(c: Config, s: State, t: nat)
    requires RunInv(c, s) && s.tasks == map[]
    ensures RunInv(c, Next(c, s, Boot(t)))
  {
    if !s.up {
      var s' := Next(c, s, Boot(t));
      forall i | i in s'.stale
        ensures StaleOk(c, s'.db, s'.stale, i)
      {
        assert RowOk(c, s.db, s.db.rows[i]);
      }
      hide DataOk, StaleOk;
    }
  }

  lemma InvStep(c: Config, s: State, e: Event)
    requires RunInv(c, s)
    ensures RunInv(c, Next(c, s, e))
  {
    hide RunInv, Resume, NextItem, Apply, Unwind;
    match e
    case NewRun(r) => RunInserted(c, s, r);
    case Trigger(r, stage) =>
      if r !in s.db.runs && stage in c.stages { TriggerInv(c, s, r, stage); }
    case TriggerRead(r) => SeedsInv(c, s, e);
    case TriggerInsert(r) => SeedsInv(c, s, e);
    case CancelRow(i) => CancelInv(c, s, e);
    case CancelRun(r) => CancelInv(c, s, e);
    case Deliver(t, r) => SpawnInv(c, s, e, t);
    case StartDrain(t) => SpawnInv(c, s, e, t);
    case Crash => CrashInv(c, s);
    case Boot(t) => if s.tasks == map[] { BootInv(c, s, t); }
    case Throw(t) => if t in s.tasks { ThrowInv(c, s, t); }
    case Act(t, k) =>
      if t in s.tasks {
        if Handled(s.tasks[t].pc).Some? { ActInv(c, s, t, k); } else { ItemInv(c, s, t, k); }
      }
  }

  lemma RunInserted(c: Config, s: State, r: RunId)
    requires RunInv(c, s)
    ensures RunInv(c, Next(c, s, NewRun(r)))
  {
    if r !in s.db.runs {
      assert forall t :: t in s.tasks ==> TaskOk(c, s.db, s.inFlight, s.tasks[t]);
      hide RunInv, DataOk, PcOk;
      OutsideInv(c, s, s.db.(runs := s.db.runs[r := Pending]));
    }
  }

  /** Seeds and history variables may change freely, as long as a seed belongs to a run. */
  lemma FlagsInv(c: Config, s: State, s': State)
    requires RunInv(c, s) && s'.db == s.db && s'.tasks == s.tasks && s'.lock == s.lock
    requires s'.inFlight == s.inFlight && s'.stale == s.stale && forall r :: r in s'.seeds ==> r in s.db.runs
    ensures RunInv(c, s')
  {
    hide DataOk, TaskOk, StaleOk, AllApart;
  }

  lemma TriggerInv(c: Config, s: State, r: RunId, stage: StageId)
    requires RunInv(c, s) && r !in s.db.runs && stage in c.stages
    ensures RunInv(c, Next(c, s, Trigger(r, stage)))
  {
    RunInserted(c, s, r);
    assert forall q :: q in s.seeds ==> q in s.db.runs;
    hide RunInv;
    FlagsInv(c, Next(c, s, NewRun(r)), Next(c, s, Trigger(r, stage)));
  }

  lemma SeedsInv(c: Config, s: State, e: Event)
    requires RunInv(c, s) && (e.TriggerRead? || e.TriggerInsert?)
    ensures RunInv(c, Next(c, s, e))
  {
    var s' := Next(c, s, e);
    SeedFrame(c, s, e);
    assert forall q :: q in s'.seeds ==> q in s.db.runs;
    assert forall t :: t in s.tasks ==> TaskOk(c, s.db, s.inFlight, s.tasks[t]);
    hide RunInv, Frame, PcOk, OnlyOwnRow, ActStep, MaxAttempt;
    OutsideInv(c, s, s'.db);
    FlagsInv(c, s.(db := s'.db), s');
  }

  lemma SeedFrame(c: Config, s: State, e: Event)
    requires RunInv(c, s) && (e.TriggerRead? || e.TriggerInsert?)
    ensures Frame(s.db, Next(c, s, e).db, None) && Next(c, s, e).db.runs == s.db.runs
  {
    hide DataOk, TaskOk, StaleOk, AllApart;
  }

  lemma CancelInv(c: Config, s: State, e: Event)
    requires RunInv(c, s) && IsCancel(e)
    ensures RunInv(c, Next(c, s, e))
  {
    var s' := Next(c, s, e);
    CancelFrame(c, s, e);
    assert forall t :: t in s.tasks ==> TaskOk(c, s.db, s.inFlight, s.tasks[t]);
    assert forall q :: q in s'.seeds ==> q in s'.db.runs;
    hide RunInv, Frame, PcOk, OnlyOwnRow, ActStep;
    OutsideInv(c, s, s'.db);
    FlagsInv(c, s.(db := s'.db), s');
  }

  /** A run about to be committed as running is row-locked, so it cannot be cancelled then. */
  lemma CancelFrame(c: Config, s: State, e: Event)
    requires RunInv(c, s) && IsCancel(e)
    ensures Frame(s.db, Next(c, s, e).db, None)
    ensures forall t :: t in s.tasks && s.tasks[t].pc.Commit? ==> IsPending(Next(c, s, e).db, s.tasks[t].pc.r)
  {
    assert forall t :: t in s.tasks ==> TaskOk(c, s.db, s.inFlight, s.tasks[t]);
    hide DataOk, PcOk, OnlyOwnRow, StaleOk, AllApart, ActStep;
  }

  lemma SpawnInv(c: Config, s: State, e: Event, t: nat)
    requires RunInv(c, s) && (e == StartDrain(t) || (e.Deliver? && e.t == t))
    ensures RunInv(c, Next(c, s, e))
  {
    if Next(c, s, e) != s {
      hide RunInv;
      SetInv(c, s, Next(c, s, e), t);
    }
  }

  lemma CrashInv(c: Config, s: State)
    requires RunInv(c, s)
    ensures RunInv(c, Next(c, s, Crash))
  {
    hide DataOk, TaskOk, StaleOk;
  }

  /** A system that has just come up: nothing is running and the tables are in order. */
  ghost predicate Init(c: Config, s: State) {
    && DataOk(c, s.db) && s.tasks == map[] && s.inFlight == {} && s.lock == None
    && s.stale == {} && s.seeds == map[] && s.claims == [] && s.late == {} && !s.cancelUsed
  }

  lemma InitInv(c: Config, s: State)
    requires Init(c, s)
    ensures RunInv(c, s)
  {
    hide DataOk;
  }

  lemma {:induction false} InvAlways(c: Config, s: State, events: seq<Event>)
    requires RunInv(c, s)
    ensures RunInv(c, Run(c, s, events))
    decreases |events|
  {
    if events != [] {
      InvStep(c, s, events[0]);
      InvAlways(c, Next(c, s, events[0]), events[1..]);
    }
  }
}

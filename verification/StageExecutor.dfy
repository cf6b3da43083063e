/**
 The stage executor run by itself, and why its chain of launches ends.

 The executor's three mutually recursive functions are methods over the run service's tables.
 They are proved against `Chain`, whose length is then bounded.
 */
module StageExecutor {
  import opened Wrappers
  import opened PipelineRuns
  import opened RunMachine
  import RunService

  /** What one launch meets: no driver binary, no isolation environment, no artifacts path in it, a failed
      execution, or a verdict; `gone` says that the issue was deleted meanwhile. The last two need a graph
      runner. */
  datatype LaunchResult = WithoutDriver | NotAcquired | WithoutArtifacts | Failing | Judged(v: Verdict, gone: bool)

  datatype Ending = Held | Finished(status: RunStatus)

  datatype Step = Stop(end: Ending) | Again(s: StageId, cause: Cause)

  function Row(db: Db, r: RunId, s: StageId, pre: Option<nat>, cause: Cause): (Db, nat) {
    if pre.Some? then (db, pre.value)
    else (AddRow(db, r, s, MaxAttempt(db.rows, r, s) + 1, cause), |db.rows|)
  }

  /** What the result of a launch writes into its row, and what it calls for. */
  function RowResult(c: Config, res: LaunchResult): (RowStatus, After) {
    match res
    case WithoutDriver => (RowFailed, ThenFinish(Failed))
    case WithoutArtifacts => (RowFailed, ThenFinish(Failed))
    case NotAcquired => (RowFailed, ThenRetry)
    case _ => if c.hasRunner then DriverResult(res) else (RowFailed, ThenFinish(Failed))
  }

  function DriverResult(res: LaunchResult): (RowStatus, After)
    requires ReachesDriver(res)
  {
    match res
    case Failing => (RowFailed, ThenRetry)
    case Judged(v, _) => (RowCompleted, ThenRoute(v))
  }

  /** The launch gets as far as marking its row running. */
  predicate ReachesDriver(res: LaunchResult) {
    !res.WithoutDriver? && !res.NotAcquired? && !res.WithoutArtifacts?
  }

  /** One launch, from its row to the decision about the next one. */
  function LaunchOnce(c: Config, db: Db, r: RunId, s: StageId, pre: Option<nat>, cause: Cause, res: LaunchResult): (Db, Step)
    requires s in c.stages && ValidPre(db, r, s, pre)
  {
    var (db1, i) := Row(db, r, s, pre, cause);
    if c.stages[s].held then (SetRow(db1, i, RowPending), Stop(Held))
    else
      var db2 := if ReachesDriver(res) then SetRow(db1, i, RowRunning) else db1;
      var (status, after) := RowResult(c, res);
      var db3 := CompleteRow(db2, i, status);
      var pc := Follow(c, r, db1.rows[i], after, res.Judged? && res.gone);
      if pc.Finish? then (SetRun(db3, r, pc.final), Stop(Finished(pc.final))) else (db3, Again(pc.s, pc.cause))
  }

  predicate ValidPre(db: Db, r: RunId, s: StageId, pre: Option<nat>) {
    pre.Some? ==> pre.value < |db.rows| && db.rows[pre.value].run == r && db.rows[pre.value].stage == s
  }

  /** All launches until the run ends, is held, or `results` runs out. */
  function Chain(c: Config, db: Db, r: RunId, s: StageId, pre: Option<nat>, cause: Cause,
                 results: seq<LaunchResult>): (Db, Option<Ending>)
    requires ConfigOk(c) && s in c.stages && ValidPre(db, r, s, pre)
    decreases |results|
  {
    if results == [] then (db, None)
    else
      match LaunchOnce(c, db, r, s, pre, cause, results[0])
      case (db', Stop(end)) => (db', Some(end))
      case (db', Again(next, why)) => Chain(c, db', r, next, None, why, results[1..])
  }

  /** Finishing the run, or the rest of the chain. */
  function Continue(c: Config, db: Db, r: RunId, pc: Pc, results: seq<LaunchResult>): (Db, Option<Ending>)
    requires ConfigOk(c) && (pc.Finish? || (pc.ReadMax? && pc.s in c.stages))
  {
    if pc.Finish? then (SetRun(db, r, pc.final), Some(Finished(pc.final)))
    else Chain(c, db, r, pc.s, None, pc.cause, results)
  }

  // ---------------------------------------------------------------- the executor's methods

  class StageExecutor {
    const service: RunService.RunService

    constructor (service: RunService.RunService)
      ensures this.service == service
    {
      this.service := service;
    }

    /** launchStage. `None` means that `results` ran out before the run came to an end. */
    method LaunchStage(c: Config, r: RunId, s: StageId, pre: Option<nat>, cause: Cause, results: seq<LaunchResult>)
      returns (end: Option<Ending>)
      requires ConfigOk(c) && s in c.stages && ValidPre(service.Tables(), r, s, pre)
      modifies service
      ensures (service.Tables(), end) == Chain(c, old(service.Tables()), r, s, pre, cause, results)
      decreases |results|, 2
    {
      if results == [] {
        return None;
      }
      var i;
      if pre.Some? {
        i := pre.value;
      } else {
        i := service.CreateStageRun(r, s, cause);
      }
      if c.stages[s].held {
        service.UpdateStageRunStatus(i, RowPending);
        return Some(Held);
      }
      var row := service.stageRuns[i];
      var res := results[0];
      if res.WithoutDriver? {
        service.CompleteStageRun(i, RowFailed);
        end := FinishRun(r, Failed);
        return;
      }
      if res.NotAcquired? {
        service.CompleteStageRun(i, RowFailed);
        end := HandleStageFailed(c, r, row, results[1..]);
        return;
      }
      if res.WithoutArtifacts? {
        service.CompleteStageRun(i, RowFailed);
        end := FinishRun(r, Failed);
        return;
      }
      service.UpdateStageRunStatus(i, RowRunning);
      if !c.hasRunner {
        service.CompleteStageRun(i, RowFailed);
        end := FinishRun(r, Failed);
      } else if res.Failing? {
        service.CompleteStageRun(i, RowFailed);
        end := HandleStageFailed(c, r, row, results[1..]);
      } else {
        service.CompleteStageRun(i, RowCompleted);
        end := ApplyVerdict(c, r, row, res.v, res.gone, results[1..]);
      }
    }

    method HandleStageFailed(c: Config, r: RunId, row: StageRun, results: seq<LaunchResult>) returns (end: Option<Ending>)
      requires ConfigOk(c) && row.stage in c.stages
      modifies service
      ensures (service.Tables(), end)
           == Continue(c, old(service.Tables()), r, Retrying(c, r, row), results)
      decreases |results|, 3
    {
      if MayRetry(c, row.stage, row.attempt) {
        end := LaunchStage(c, r, row.stage, None, Retry(row.attempt), results);
      } else {
        end := FinishRun(r, Failed);
      }
    }

    method ApplyVerdict(c: Config, r: RunId, row: StageRun, v: Verdict, gone: bool, results: seq<LaunchResult>)
      returns (end: Option<Ending>)
      requires ConfigOk(c) && row.stage in c.stages
      modifies service
      ensures (service.Tables(), end)
           == Continue(c, old(service.Tables()), r, Follow(c, r, row, ThenRoute(v), gone), results)
      decreases |results|, 3
    {
      if gone {
        end := FinishRun(r, Failed);
        return;
      }
      match RouteTo(c, r, c.stages[row.stage], v)
      case End(final) => end := FinishRun(r, final);
      case To(next) => end := LaunchStage(c, r, next, None, Entry, results);
    }

    method FinishRun(r: RunId, final: RunStatus) returns (end: Option<Ending>)
      modifies service
      ensures service.Tables() == SetRun(old(service.Tables()), r, final) && end == Some(Finished(final))
    {
      service.WriteRunStatus(r, final);
      end := Some(Finished(final));
    }
  }

  // ---------------------------------------------------------------- the same steps, uninterrupted

  /** An activation of the run machine resumed again and again with nothing in between. */
  function Alone(c: Config, db: Db, pc: Pc, choices: seq<Choice>): (Db, Move)
    requires Handled(pc).Some?
    decreases |choices|
  {
    if choices == [] then (db, At(pc))
    else
      var (db', m) := Resume(c, db, true, pc, choices[0]);
      if m.At? && Handled(m.pc).Some? then Alone(c, db', m.pc, choices[1..]) else (db', m)
  }

  lemma {:induction false} AloneConcat(c: Config, db: Db, pc: Pc, a: seq<Choice>, b: seq<Choice>)
    requires Handled(pc).Some?
    requires var (db', m) := Alone(c, db, pc, a); m.At? && Handled(m.pc).Some?
    ensures var (db', m) := Alone(c, db, pc, a); Alone(c, db, pc, a + b) == Alone(c, db', m.pc, b)
    decreases |a|
  {
    if a == [] {
      assert a + b == b;
    } else {
      assert (a + b)[1..] == a[1..] + b;
      var (db1, m1) := Resume(c, db, true, pc, a[0]);
      if m1.At? && Handled(m1.pc).Some? {
        AloneConcat(c, db1, m1.pc, a[1..], b);
      }
    }
  }

  /** What the environment answers, step by step, in a launch with this result. */
  function Opening(res: LaunchResult): seq<Choice> {
    match res
    case WithoutDriver => [Prep(NoDriver)]
    case WithoutArtifacts => [Prep(NoArtifacts)]
    case NotAcquired => [Prep(AcquireFails)]
    case _ => [Prep(Ready), Go, Go]
  }

  function Closing(c: Config, res: LaunchResult): seq<Choice> {
    if !c.hasRunner then []
    else
      match res
      case Failing => [Ran(Broken), Go]
      case Judged(v, _) => [Ran(Said(v)), Go]
      case _ => []
  }

  /** A launch starts by inserting its row, unless it has been given one. */
  function First(pre: Option<nat>): seq<Choice> {
    if pre.Some? then [] else [Go, Go]
  }

  function Begin(r: RunId, s: StageId, pre: Option<nat>, cause: Cause): Pc {
    if pre.Some? then Gate(r, pre.value) else ReadMax(r, s, cause)
  }

  function Answers(c: Config, pre: Option<nat>, res: LaunchResult): seq<Choice> {
    First(pre) + Opening(res) + Closing(c, res) + [Subject(res.Judged? && res.gone)]
  }

  lemma AloneRow(c: Config, db: Db, r: RunId, s: StageId, pre: Option<nat>, cause: Cause)
    ensures var (db1, i) := Row(db, r, s, pre, cause);
            Alone(c, db, Begin(r, s, pre, cause), First(pre)) == (db1, At(Gate(r, i)))
  {
    if pre.None? {
      hide MaxAttempt;
      var n := MaxAttempt(db.rows, r, s);
      AloneStep(c, db, ReadMax(r, s, cause), Go, [Go], db, Insert(r, s, n, cause));
      AloneStep(c, db, Insert(r, s, n, cause), Go, [], AddRow(db, r, s, n + 1, cause), Gate(r, |db.rows|));
      assert First(pre) == [Go] + [Go] && [Go] == [Go] + [];
    }
  }

  lemma AloneHeld(c: Config, db: Db, r: RunId, i: nat)
    requires i < |db.rows| && db.rows[i].stage in c.stages && c.stages[db.rows[i].stage].held
    ensures var (db', m) := Alone(c, db, Gate(r, i), [Go]); db' == SetRow(db, i, RowPending) && m == Move.Done
  {
  }

  lemma AloneStep(c: Config, db: Db, pc: Pc, k: Choice, rest: seq<Choice>, db': Db, pc': Pc)
    requires Handled(pc).Some? && Handled(pc').Some? && Resume(c, db, true, pc, k) == (db', At(pc'))
    ensures Alone(c, db, pc, [k] + rest) == Alone(c, db', pc', rest)
  {
    assert ([k] + rest)[1..] == rest;
  }

  lemma AloneOpening(c: Config, db: Db, r: RunId, i: nat, res: LaunchResult)
    requires i < |db.rows| && !(db.rows[i].stage in c.stages && c.stages[db.rows[i].stage].held)
    ensures
      var (status, after) := RowResult(c, res);
      Alone(c, db, Gate(r, i), Opening(res))
      == (if ReachesDriver(res) then SetRow(db, i, RowRunning) else db,
          At(if Closing(c, res) == [] then Complete(r, i, status, after) else Drive(r, i)))
  {
    var (status, after) := RowResult(c, res);
    if ReachesDriver(res) {
      var next := if c.hasRunner then Drive(r, i) else Complete(r, i, status, after);
      var db' := SetRow(db, i, RowRunning);
      AloneStep(c, db, Gate(r, i), Prep(Ready), [Go, Go], db, Start(r, i));
      AloneStep(c, db, Start(r, i), Go, [Go], db', Exec(r, i));
      AloneStep(c, db', Exec(r, i), Go, [], db', next);
      assert Opening(res) == [Prep(Ready)] + [Go, Go] && [Go, Go] == [Go] + [Go] && [Go] == [Go] + [];
    } else {
      var p := if res.WithoutDriver? then NoDriver else if res.WithoutArtifacts? then NoArtifacts else AcquireFails;
      AloneStep(c, db, Gate(r, i), Prep(p), [], db, Complete(r, i, status, after));
      assert Opening(res) == [Prep(p)] + [];
    }
  }

  lemma AloneClosing(c: Config, db: Db, r: RunId, i: nat, res: LaunchResult)
    requires i < |db.rows| && db.rows[i].status != RowCancelled && c.hasRunner && (res.Failing? || res.Judged?)
    ensures
      var (status, after) := RowResult(c, res);
      Alone(c, db, Drive(r, i), Closing(c, res)) == (db, At(Complete(r, i, status, after)))
  {
    var (status, after) := RowResult(c, res);
    var o := if res.Failing? then Broken else Said(res.v);
    AloneStep(c, db, Drive(r, i), Ran(o), [Go], db, Check(r, i, o));
    AloneStep(c, db, Check(r, i, o), Go, [], db, Complete(r, i, status, after));
    assert Closing(c, res) == [Ran(o)] + [Go] && [Go] == [Go] + [];
  }

  /** From a launch's first await to its last, on a new row or a given one, the machine's activation leaves
      what `LaunchOnce` says: the same tables, and the hold, the next launch or the end it decides on. */
  lemma LaunchIsUninterrupted(c: Config, db: Db, r: RunId, s: StageId, pre: Option<nat>, cause: Cause, res: LaunchResult)
    requires s in c.stages && ValidPre(db, r, s, pre)
    ensures
      var (db', step) := LaunchOnce(c, db, r, s, pre, cause, res);
      var start := Begin(r, s, pre, cause);
      if c.stages[s].held then
        Alone(c, db, start, First(pre) + [Go]) == (db', Done) && step == Stop(Held)
      else
        var (db1, m) := Alone(c, db, start, Answers(c, pre, res));
        m.At? && match step
        case Again(next, why) => m.pc == ReadMax(r, next, why) && db' == db1
        case Stop(end) => end.Finished? && m.pc == Finish(r, end.status) && db' == SetRun(db1, r, end.status)
  {
    var (db1, i) := Row(db, r, s, pre, cause);
    AloneRow(c, db, r, s, pre, cause);
    hide Resume, Follow;
    if c.stages[s].held {
      AloneHeld(c, db1, r, i);
      AloneConcat(c, db, Begin(r, s, pre, cause), First(pre), [Go]);
    } else {
      LaunchPasses(c, db, r, s, pre, cause, res);
    }
  }

  lemma LaunchPasses(c: Config, db: Db, r: RunId, s: StageId, pre: Option<nat>, cause: Cause, res: LaunchResult)
    requires s in c.stages && ValidPre(db, r, s, pre) && !c.stages[s].held
    ensures
      var (db', step) := LaunchOnce(c, db, r, s, pre, cause, res);
      var (db1, m) := Alone(c, db, Begin(r, s, pre, cause), Answers(c, pre, res));
      m.At? && match step
      case Again(next, why) => m.pc == ReadMax(r, next, why) && db' == db1
      case Stop(end) => end.Finished? && m.pc == Finish(r, end.status) && db' == SetRun(db1, r, end.status)
  {
    var (db1, i) := Row(db, r, s, pre, cause);
    var db2 := if ReachesDriver(res) then SetRow(db1, i, RowRunning) else db1;
    var (status, after) := RowResult(c, res);
    var start, settle, first := Begin(r, s, pre, cause), Complete(r, i, status, after), First(pre);
    hide Resume, Follow;
    AloneRow(c, db, r, s, pre, cause);
    AloneOpening(c, db1, r, i, res);
    AloneConcat(c, db, start, first, Opening(res));
    if Closing(c, res) != [] {
      AloneClosing(c, db2, r, i, res);
      AloneConcat(c, db, start, first + Opening(res), Closing(c, res));
    } else {
      assert first + Opening(res) + Closing(c, res) == first + Opening(res);
    }
    assert Alone(c, db, start, first + Opening(res) + Closing(c, res)) == (db2, At(settle));
    AloneConcat(c, db, start, first + Opening(res) + Closing(c, res), [Subject(res.Judged? && res.gone)]);
    AloneSettle(c, db2, r, i, res, db1.rows[i]);
  }

  lemma AloneSettle(c: Config, db: Db, r: RunId, i: nat, res: LaunchResult, row: StageRun)
    requires i < |db.rows| && row.stage in c.stages && row.stage == db.rows[i].stage && row.attempt == db.rows[i].attempt
    ensures
      var (status, after) := RowResult(c, res);
      Alone(c, db, Complete(r, i, status, after), [Subject(res.Judged? && res.gone)])
      == (CompleteRow(db, i, status), At(Follow(c, r, row, after, res.Judged? && res.gone)))
  {
  }
}

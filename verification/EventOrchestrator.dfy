/**
 The event orchestrator by itself: one handler, drain or recovery at a time, over the run service's tables.
 `results(r)` is what the launches of run `r` meet, in order.
 */
module EventOrchestrator {
  import opened Wrappers
  import opened PipelineRuns
  import opened RunMachine
  import opened RunRouting
  import opened StageExecutor
  import opened LaunchOutcomes
  import RunService

  type Results = RunId -> seq<LaunchResult>

  // ---------------------------------------------------------------- what the handlers do

  /** Where a claimed run starts: at the operator's seed row, or at the first stage. */
  function FirstLaunch(c: Config, db: Db, r: RunId): (first: (StageId, Option<nat>))
    requires ConfigOk(c) && c.pipeline(r) != []
    ensures first.0 in c.stages && ValidPre(db, r, first.0, first.1)
  {
    var seed := FirstPending(db.rows, r);
    if seed.Some? && db.rows[seed.value].stage in c.pipeline(r) then (db.rows[seed.value].stage, seed)
    else (c.pipeline(r)[0], None)
  }

  ghost function HandleNew(c: Config, db: Db, r: RunId, results: Results): Db
    requires ConfigOk(c)
  {
    if !IsPending(db, r) then db
    else if c.pipeline(r) == [] then SetRun(db, r, Failed)
    else if RunningCount(db.runs) >= c.maxRuns then db
    else
      var db1 := SetRun(db, r, Running);
      var (s, pre) := FirstLaunch(c, db1, r);
      Chain(c, db1, r, s, pre, Entry, results(r)).0
  }

  ghost function DrainAll(c: Config, db: Db, queue: seq<RunId>, results: Results): Db
    requires ConfigOk(c)
    decreases |queue|
  {
    if queue == [] then db else DrainAll(c, HandleNew(c, db, queue[0], results), queue[1..], results)
  }

  ghost function RecoverOne(c: Config, db: Db, i: nat, results: Results): Db
    requires ConfigOk(c) && i < |db.rows|
  {
    var row := db.rows[i];
    var db1 := CompleteRow(db, i, RowFailed);
    if row.stage !in c.stages then db1
    else if !MayRetry(c, row.stage, row.attempt) then SetRun(db1, row.run, Failed)
    else if row.run !in db.runs then db1
    else Chain(c, db1, row.run, row.stage, None, Retry(row.attempt), results(row.run)).0
  }

  ghost function RecoverAll(c: Config, db: Db, stale: seq<nat>, alive: nat -> bool, results: Results): Db
    requires ConfigOk(c)
    decreases |stale|
  {
    if stale == [] then db
    else
      var db1 := if stale[0] < |db.rows| && !alive(stale[0]) then RecoverOne(c, db, stale[0], results) else db;
      RecoverAll(c, db1, stale[1..], alive, results)
  }

  // ---------------------------------------------------------------- the orchestrator's methods

  class EventOrchestrator {
    const service: RunService.RunService
    const executor: StageExecutor
    var inFlight: set<RunId>

    constructor (service: RunService.RunService)
      ensures this.service == service && fresh(executor) && executor.service == service && inFlight == {}
    {
      this.service := service;
      executor := new StageExecutor(service);
      inFlight := {};
    }

    /** A run already in flight is left alone; in the end nothing stays in flight that was not. */
    method HandleNewRun(c: Config, r: RunId, results: Results)
      requires ConfigOk(c) && executor.service == service
      modifies this`inFlight, service
      ensures inFlight == old(inFlight)
      ensures service.Tables() == if r in old(inFlight) then old(service.Tables()) else HandleNew(c, old(service.Tables()), r, results)
    {
      if r in inFlight {
        return;
      }
      inFlight := inFlight + {r};
      Claim(c, r, results);
      inFlight := inFlight - {r};
    }

    /** The body of handleNewRun, whose `finally` the caller runs. */
    method Claim(c: Config, r: RunId, results: Results)
      requires ConfigOk(c) && executor.service == service
      modifies service
      ensures service.Tables() == HandleNew(c, old(service.Tables()), r, results)
    {
      if r !in service.runs || service.runs[r] != Pending {
        return;
      }
      if c.pipeline(r) == [] {
        service.WriteRunStatus(r, Failed);
        return;
      }
      var acquired := service.TryAcquireRunningSlot(r, c.maxRuns);
      if !acquired {
        return;
      }
      var seed := FirstPending(service.stageRuns, r);
      if seed.Some? && service.stageRuns[seed.value].stage in c.pipeline(r) {
        var _ := executor.LaunchStage(c, r, service.stageRuns[seed.value].stage, seed, Entry, results(r));
        return;
      }
      var _ := executor.LaunchStage(c, r, c.pipeline(r)[0], None, Entry, results(r));
    }

    /** `pending` is the queue as the database lists it. */
    method DrainPending(c: Config, pending: seq<RunId>, results: Results)
      requires ConfigOk(c) && executor.service == service && forall r | r in pending :: r !in inFlight
      modifies this`inFlight, service
      ensures inFlight == old(inFlight)
      ensures service.Tables() == DrainAll(c, old(service.Tables()), pending, results)
    {
      for k := 0 to |pending|
        invariant inFlight == old(inFlight)
        invariant DrainAll(c, service.Tables(), pending[k..], results) == DrainAll(c, old(service.Tables()), pending, results)
      {
        assert pending[k..][1..] == pending[k + 1..];
        HandleNewRun(c, pending[k], results);
      }
    }

    /** `stale` lists the running rows, `alive` says whose process still exists, `pending` is the queue as
        it stands after the loop. */
    method RecoverOnStartup(c: Config, stale: seq<nat>, alive: nat -> bool, pending: seq<RunId>, results: Results, later: Results)
      requires ConfigOk(c) && executor.service == service && forall r | r in pending :: r !in inFlight
      modifies this`inFlight, service
      ensures inFlight == old(inFlight)
      ensures service.Tables() == DrainAll(c, RecoverAll(c, old(service.Tables()), stale, alive, results), pending, later)
    {
      for k := 0 to |stale|
        invariant inFlight == old(inFlight)
        invariant RecoverAll(c, service.Tables(), stale[k..], alive, results) == RecoverAll(c, old(service.Tables()), stale, alive, results)
      {
        assert stale[k..][1..] == stale[k + 1..];
        var i := stale[k];
        if i < |service.stageRuns| && !alive(i) {
          Recover(c, i, results);
        }
      }
      DrainPending(c, pending, later);
    }

    method Recover(c: Config, i: nat, results: Results)
      requires ConfigOk(c) && executor.service == service && i < |service.stageRuns|
      modifies service
      ensures service.Tables() == RecoverOne(c, old(service.Tables()), i, results)
    {
      var row := service.stageRuns[i];
      service.CompleteStageRun(i, RowFailed);
      if row.stage !in c.stages {
        return;
      }
      if MayRetry(c, row.stage, row.attempt) {
        if row.run in service.runs {
          var _ := executor.LaunchStage(c, row.run, row.stage, None, Retry(row.attempt), results(row.run));
        }
      } else {
        service.WriteRunStatus(row.run, Failed);
      }
    }
  }

  // ---------------------------------------------------------------- what a chain leaves behind

  /** A chain decides its own run only, ends it or leaves its status alone, and leaves no row running. */
  ghost predicate Tidy(db: Db, db': Db, r: RunId, end: Option<Ending>) {
    && db'.runs.Keys == db.runs.Keys
    && (forall q | q in db.runs && q != r :: db'.runs[q] == db.runs[q])
    && (r in db.runs ==> db'.runs[r] == if end.Some? && end.value.Finished? then end.value.status else db.runs[r])
    && (end.Some? && end.value.Finished? ==> end.value.status in {Completed, Failed, Blocked})
    && |db.rows| <= |db'.rows|
    && (forall i | 0 <= i < |db.rows| :: db'.rows[i].run == db.rows[i].run)
    && (forall i | 0 <= i < |db'.rows| && db'.rows[i].status == RowRunning :: i < |db.rows| && db.rows[i] == db'.rows[i])
    && (forall i | 0 <= i < |db.rows| && db.rows[i].status == RowRunning && db.rows[i].run != r :: db'.rows[i] == db.rows[i])
  }

  function EndOf(step: Step): Option<Ending> {
    if step.Stop? then Some(step.end) else None
  }

  lemma LaunchTidy(c: Config, db: Db, r: RunId, s: StageId, pre: Option<nat>, cause: Cause, res: LaunchResult)
    requires s in c.stages && ValidPre(db, r, s, pre)
    ensures var (db', step) := LaunchOnce(c, db, r, s, pre, cause, res); Tidy(db, db', r, EndOf(step))
  {
    hide MaxAttempt, RouteTo;
    LaunchRuns(c, db, r, s, pre, cause, res);
    LaunchRows(c, db, r, s, pre, cause, res);
    hide LaunchOnce;
  }

  lemma LaunchRuns(c: Config, db: Db, r: RunId, s: StageId, pre: Option<nat>, cause: Cause, res: LaunchResult)
    requires s in c.stages && ValidPre(db, r, s, pre)
    ensures
      var (db', step) := LaunchOnce(c, db, r, s, pre, cause, res);
      && db'.runs == (if step.Stop? && step.end.Finished? then SetRun(db, r, step.end.status) else db).runs
      && (step.Stop? && step.end.Finished? ==> step.end.status in {Completed, Failed, Blocked})
  {
    hide MaxAttempt;
  }

  lemma LaunchRows(c: Config, db: Db, r: RunId, s: StageId, pre: Option<nat>, cause: Cause, res: LaunchResult)
    requires s in c.stages && ValidPre(db, r, s, pre)
    ensures
      var (db', _) := LaunchOnce(c, db, r, s, pre, cause, res);
      var (db1, i) := Row(db, r, s, pre, cause);
      && |db'.rows| == |db1.rows| && i < |db1.rows| && db1.rows[i].run == r && db'.rows[i].status != RowRunning
      && forall j | 0 <= j < |db1.rows| && j != i :: db'.rows[j] == db1.rows[j]
  {
    hide MaxAttempt, Follow;
  }

  lemma TidyThrough(a: Db, b: Db, d: Db, r: RunId, end: Option<Ending>)
    requires Tidy(a, b, r, None) && Tidy(b, d, r, end)
    ensures Tidy(a, d, r, end)
  {
  }

  lemma {:induction false} ChainTidy(c: Config, db: Db, r: RunId, s: StageId, pre: Option<nat>, cause: Cause, results: seq<LaunchResult>)
    requires ConfigOk(c) && s in c.stages && ValidPre(db, r, s, pre)
    ensures var (db', end) := Chain(c, db, r, s, pre, cause, results); Tidy(db, db', r, end)
    decreases |results|
  {
    if results != [] {
      hide Tidy, LaunchOnce;
      LaunchTidy(c, db, r, s, pre, cause, results[0]);
      match LaunchOnce(c, db, r, s, pre, cause, results[0]) {
        case (_, Stop(_)) =>
        case (db', Again(next, why)) =>
          ChainTidy(c, db', r, next, None, why, results[1..]);
          TidyThrough(db, db', Chain(c, db, r, s, pre, cause, results).0, r, Chain(c, db, r, s, pre, cause, results).1);
      }
    }
  }

  // ---------------------------------------------------------------- what a drain achieves

  /** One handler: other runs keep their status; the run itself stays pending only at the limit, and is
      running afterwards only if its chain did not come to an end. */
  lemma HandleNewRuns(c: Config, db: Db, r: RunId, results: Results)
    requires ConfigOk(c)
    ensures
      var db' := HandleNew(c, db, r, results);
      && db'.runs.Keys == db.runs.Keys
      && (forall q | q in db.runs && q != r :: db'.runs[q] == db.runs[q])
      && (r in db.runs && db.runs[r] != Pending ==> db'.runs == db.runs)
      && (IsPending(db, r) && RunningCount(db.runs) < c.maxRuns ==> db'.runs[r] in {Running, Completed, Failed, Blocked})
  {
    if IsPending(db, r) && c.pipeline(r) != [] && RunningCount(db.runs) < c.maxRuns {
      var db1 := SetRun(db, r, Running);
      var (s, pre) := FirstLaunch(c, db1, r);
      hide Chain, RunningCount;
      ChainTidy(c, db1, r, s, pre, Entry, results(r));
    }
  }

  lemma CountKept(a: map<RunId, RunStatus>, b: map<RunId, RunStatus>, r: RunId)
    requires a.Keys == b.Keys && (forall q | q in a && q != r :: b[q] == a[q])
    requires r in b ==> b[r] != Running
    ensures RunningCount(b) <= RunningCount(a)
  {
    assert RunningRuns(b) <= RunningRuns(a);
    SubsetSize(RunningRuns(b), RunningRuns(a));
  }

  ghost predicate NoneRunning(db: Db, queue: seq<RunId>) {
    forall r | r in queue && r in db.runs :: db.runs[r] != Running
  }

  /** A drain only ever touches the runs of its queue; and a run it has taken past pending stays past it. */
  lemma {:induction false} DrainKeeps(c: Config, db: Db, queue: seq<RunId>, results: Results)
    requires ConfigOk(c)
    ensures
      var db' := DrainAll(c, db, queue, results);
      && db'.runs.Keys == db.runs.Keys
      && (forall r | r in db.runs && (r !in queue || db.runs[r] != Pending) :: db'.runs[r] == db.runs[r])
    decreases |queue|
  {
    if queue != [] {
      hide HandleNew;
      HandleNewRuns(c, db, queue[0], results);
      DrainKeeps(c, HandleNew(c, db, queue[0], results), queue[1..], results);
      assert queue == [queue[0]] + queue[1..];
    }
  }

  /** With a slot free, a drain that leaves none of its runs running has left none of them pending either:
      a run keeps waiting only because another one is still held or under way. */
  lemma {:induction false} DrainServes(c: Config, db: Db, queue: seq<RunId>, results: Results)
    requires ConfigOk(c) && RunningCount(db.runs) < c.maxRuns
    requires NoneRunning(DrainAll(c, db, queue, results), queue)
    ensures forall r | r in queue && r in db.runs :: !IsPending(DrainAll(c, db, queue, results), r)
    decreases |queue|
  {
    if queue != [] {
      hide HandleNew, RunningCount;
      var r, rest := queue[0], queue[1..];
      var db1 := HandleNew(c, db, r, results);
      assert queue == [r] + rest;
      HandleNewRuns(c, db, r, results);
      DrainKeeps(c, db1, rest, results);
      CountKept(db.runs, db1.runs, r);
      DrainServes(c, db1, rest, results);
    }
  }

  // ---------------------------------------------------------------- what recovery achieves

  lemma RecoverTidy(c: Config, db: Db, i: nat, results: Results)
    requires ConfigOk(c) && i < |db.rows|
    ensures
      var db' := RecoverOne(c, db, i, results);
      && |db.rows| <= |db'.rows|
      && (forall j | 0 <= j < |db.rows| :: db'.rows[j].run == db.rows[j].run)
      && (forall j | 0 <= j < |db'.rows| && db'.rows[j].status == RowRunning :: j < |db.rows| && j != i && db'.rows[j] == db.rows[j])
      && (forall j | 0 <= j < |db.rows| && db.rows[j].status == RowRunning && db.rows[j].run != db.rows[i].run :: db'.rows[j] == db.rows[j])
  {
    var row := db.rows[i];
    var db1 := CompleteRow(db, i, RowFailed);
    if row.stage in c.stages && MayRetry(c, row.stage, row.attempt) && row.run in db.runs {
      hide Chain;
      ChainTidy(c, db1, row.run, row.stage, None, Retry(row.attempt), results(row.run));
    }
  }

  ghost predicate NoneDead(db: Db, stale: seq<nat>, alive: nat -> bool, r: RunId) {
    forall i | i in stale && i < |db.rows| && !alive(i) :: db.rows[i].run != r
  }

  /** After recovery by itself, the only running rows are rows that were running and whose process is
      alive: every dead one has been closed, and nothing new is left running. A running row of a run
      without a dead row is not touched. */
  lemma {:induction false} RecoveryClosesDead(c: Config, db: Db, stale: seq<nat>, alive: nat -> bool, results: Results)
    requires ConfigOk(c) && forall i | i in stale :: i < |db.rows|
    ensures
      var db' := RecoverAll(c, db, stale, alive, results);
      && |db.rows| <= |db'.rows|
      && (forall i | 0 <= i < |db'.rows| && db'.rows[i].status == RowRunning ::
            i < |db.rows| && db.rows[i] == db'.rows[i] && (i in stale ==> alive(i)))
      && (forall i | 0 <= i < |db.rows| && db.rows[i].status == RowRunning && NoneDead(db, stale, alive, db.rows[i].run) ::
            db'.rows[i] == db.rows[i])
    decreases |stale|
  {
    if stale != [] {
      hide RecoverOne;
      var i := stale[0];
      var db1 := if i < |db.rows| && !alive(i) then RecoverOne(c, db, i, results) else db;
      assert i in stale && forall j | j in stale[1..] :: j in stale;
      assert stale == [i] + stale[1..];
      if !alive(i) {
        RecoverTidy(c, db, i, results);
      }
      forall r | NoneDead(db, stale, alive, r)
        ensures NoneDead(db1, stale[1..], alive, r) && (alive(i) || db.rows[i].run != r)
      {
      }
      RecoveryClosesDead(c, db1, stale[1..], alive, results);
    }
  }

  // ---------------------------------------------------------------- the same awaits, one handler alone

  function Gos(n: nat): seq<Choice> {
    if n == 0 then [] else [Go] + Gos(n - 1)
  }

  lemma AloneEnds(c: Config, db: Db, pc: Pc, n: nat, db': Db)
    requires Handled(pc).Some? && n > 0 && Resume(c, db, true, pc, Go) == (db', Move.Done)
    ensures Alone(c, db, pc, Gos(n)) == (db', Move.Done)
  {
    assert Gos(n)[0] == Go;
  }

  /** The awaits of handleNewRun in the run machine, resumed with nothing in between, come to the same: the
      handler returns, fails a run without stages, stays at the limit, or claims the run and stands before
      the launch that HandleNew's chain begins with. */
  lemma HandlerIsUninterrupted(c: Config, db: Db, r: RunId, results: Results)
    requires ConfigOk(c)
    ensures
      if !IsPending(db, r) then
        Alone(c, db, GetRun(r), Gos(1)) == (HandleNew(c, db, r, results), Move.Done)
      else if c.pipeline(r) == [] then
        Alone(c, db, GetRun(r), Gos(3)) == (HandleNew(c, db, r, results), Move.Done)
      else if RunningCount(db.runs) >= c.maxRuns then
        Alone(c, db, GetRun(r), Gos(5)) == (HandleNew(c, db, r, results), Move.Done)
      else
        var db1 := SetRun(db, r, Running);
        var (s, pre) := FirstLaunch(c, db1, r);
        && Alone(c, db, GetRun(r), Gos(7)) == (db1, At(Begin(r, s, pre, Entry)))
        && HandleNew(c, db, r, results) == Chain(c, db1, r, s, pre, Entry, results(r)).0
  {
    hide RunningCount, Alone, Chain, Gos;
    if !IsPending(db, r) {
      AloneEnds(c, db, GetRun(r), 1, db);
    } else if c.pipeline(r) == [] {
      GosStep(2);
      GosStep(3);
      AloneStep(c, db, GetRun(r), Go, Gos(2), db, GetStages(r));
      AloneStep(c, db, GetStages(r), Go, Gos(1), db, FailEmpty(r));
      AloneEnds(c, db, FailEmpty(r), 1, SetRun(db, r, Failed));
    } else {
      AloneToWrite(c, db, r, if RunningCount(db.runs) >= c.maxRuns then 1 else 3);
      if RunningCount(db.runs) >= c.maxRuns {
        AloneEnds(c, db, Write(r, RunningCount(db.runs)), 1, db);
      } else {
        AloneToLaunch(c, db, r);
      }
    }
  }

  lemma GosStep(n: nat)
    requires n > 0
    ensures Gos(n) == [Go] + Gos(n - 1)
  {
  }

  lemma AloneToWrite(c: Config, db: Db, r: RunId, n: nat)
    requires IsPending(db, r) && c.pipeline(r) != []
    ensures Alone(c, db, GetRun(r), Gos(n + 4)) == Alone(c, db, Write(r, RunningCount(db.runs)), Gos(n))
  {
    hide RunningCount, Alone;
    AloneStep(c, db, GetRun(r), Go, Gos(n + 3), db, GetStages(r));
    AloneStep(c, db, GetStages(r), Go, Gos(n + 2), db, Lock(r));
    AloneStep(c, db, Lock(r), Go, Gos(n + 1), db, Snapshot(r));
    AloneStep(c, db, Snapshot(r), Go, Gos(n), db, Write(r, RunningCount(db.runs)));
  }

  lemma AloneToLaunch(c: Config, db: Db, r: RunId)
    requires ConfigOk(c) && IsPending(db, r) && c.pipeline(r) != [] && RunningCount(db.runs) < c.maxRuns
    ensures
      var db1 := SetRun(db, r, Running);
      var (s, pre) := FirstLaunch(c, db1, r);
      Alone(c, db, Write(r, RunningCount(db.runs)), Gos(3)) == (db1, At(Begin(r, s, pre, Entry)))
  {
    hide RunningCount;
    var db1 := SetRun(db, r, Running);
    var (s, pre) := FirstLaunch(c, db1, r);
    AloneStep(c, db, Write(r, RunningCount(db.runs)), Go, Gos(2), db, Commit(r));
    AloneStep(c, db, Commit(r), Go, Gos(1), db1, GetStageRuns(r));
    AloneStep(c, db1, GetStageRuns(r), Go, Gos(0), db1, Begin(r, s, pre, Entry));
  }

  /** The first stage to run: with a slot free, the run's first pending row is launched if its stage is one of
      the pipeline's; otherwise the first new row is of the pipeline's first stage. */
  lemma StartsAtFirstStage(c: Config, db: Db, r: RunId, results: Results)
    requires ConfigOk(c) && IsPending(db, r) && c.pipeline(r) != [] && RunningCount(db.runs) < c.maxRuns && results(r) != []
    ensures
      var rows := HandleNew(c, db, r, results).rows;
      var seed := FirstPending(db.rows, r);
      if seed.Some? && db.rows[seed.value].stage in c.pipeline(r) then
        && seed.value < |rows|
        && (if c.stages[db.rows[seed.value].stage].held then rows == db.rows[seed.value := rows[seed.value]]
            else rows[seed.value].status in {RowCompleted, RowFailed})
      else
        && |rows| > |db.rows| && rows[|db.rows|].run == r && rows[|db.rows|].stage == c.pipeline(r)[0]
        && rows[|db.rows|].attempt == MaxAttempt(db.rows, r, c.pipeline(r)[0]) + 1
  {
    var db1 := SetRun(db, r, Running);
    var (s, pre) := FirstLaunch(c, db1, r);
    LaunchRow(c, db1, r, s, pre, Entry, results(r)[0]);
    LaunchDecides(c, db1, r, s, pre, Entry, results(r)[0]);
    match LaunchOnce(c, db1, r, s, pre, Entry, results(r)[0]) {
      case (db2, Stop(_)) =>
      case (db2, Again(next, why)) => ChainAppends(c, db2, r, next, why, results(r)[1..]);
    }
    hide LaunchOnce, RunningCount, MaxAttempt;
  }

  /** A chain that inserts its rows leaves the rows that were there alone. */
  lemma {:induction false} ChainAppends(c: Config, db: Db, r: RunId, s: StageId, cause: Cause, results: seq<LaunchResult>)
    requires ConfigOk(c) && s in c.stages
    ensures db.rows <= Chain(c, db, r, s, None, cause, results).0.rows
    decreases |results|
  {
    if results != [] {
      LaunchRow(c, db, r, s, None, cause, results[0]);
      hide LaunchOnce;
      match LaunchOnce(c, db, r, s, None, cause, results[0]) {
        case (_, Stop(_)) =>
        case (db', Again(next, why)) => ChainAppends(c, db', r, next, why, results[1..]);
      }
    }
  }

  /** The recovery of one row, as the run machine's two awaits have it: the row is failed, and then its run is
      failed or its stage relaunched, as after any failure; if the stage is gone, the run is left as it was. */
  lemma RecoveryIsUninterrupted(c: Config, db: Db, i: nat, results: Results)
    requires ConfigOk(c) && i < |db.rows| && db.rows[i].run in db.runs
    ensures db.rows[i].stage !in c.stages ==>
      && RecoverOne(c, db, i, results).runs == db.runs
      && RecoverOne(c, db, i, results).rows
         == if db.rows[i].status == RowCancelled then db.rows else db.rows[i := db.rows[i].(status := RowFailed)]
    ensures db.rows[i].stage in c.stages ==>
      var row := db.rows[i];
      var db1 := CompleteRow(db, i, RowFailed);
      && Alone(c, db, RecoverRow(row.run, i), Gos(2)) == (db1, At(Retrying(c, row.run, row)))
      && RecoverOne(c, db, i, results) == Continue(c, db1, row.run, Retrying(c, row.run, row), results(row.run)).0
      && i < |RecoverOne(c, db, i, results).rows| && RecoverOne(c, db, i, results).rows[i] == db1.rows[i]
      && (Retriable(c.stages[row.stage], row.attempt) && results(row.run) != [] ==>
            var rows := RecoverOne(c, db, i, results).rows;
            && |rows| > |db.rows| && rows[|db.rows|].run == row.run && rows[|db.rows|].stage == row.stage
            && rows[|db.rows|].cause == Retry(row.attempt))
      && (!Retriable(c.stages[row.stage], row.attempt) ==> RecoverOne(c, db, i, results) == db1.(runs := db.runs[row.run := Failed]))
  {
    var row := db.rows[i];
    var db1 := CompleteRow(db, i, RowFailed);
    if row.stage in c.stages {
      AloneStep(c, db, RecoverRow(row.run, i), Go, Gos(1), db1, RecoverRun(row.run, i));
      AloneStep(c, db1, RecoverRun(row.run, i), Go, Gos(0), db1, Retrying(c, row.run, row));
      hide Alone, Resume, MaxAttempt;
      if MayRetry(c, row.stage, row.attempt) {
        RelaunchRow(c, db1, row, results(row.run));
      }
    }
  }

  lemma RelaunchRow(c: Config, db: Db, row: StageRun, results: seq<LaunchResult>)
    requires ConfigOk(c) && row.stage in c.stages
    ensures
      var rows := Chain(c, db, row.run, row.stage, None, Retry(row.attempt), results).0.rows;
      && db.rows <= rows
      && (results != [] ==>
            && |rows| > |db.rows| && rows[|db.rows|].run == row.run && rows[|db.rows|].stage == row.stage
            && rows[|db.rows|].cause == Retry(row.attempt))
  {
    ChainAppends(c, db, row.run, row.stage, Retry(row.attempt), results);
    if results != [] {
      LaunchRow(c, db, row.run, row.stage, None, Retry(row.attempt), results[0]);
      match LaunchOnce(c, db, row.run, row.stage, None, Retry(row.attempt), results[0]) {
        case (_, Stop(_)) =>
        case (db', Again(next, why)) => ChainAppends(c, db', row.run, next, why, results[1..]);
      }
    }
    hide LaunchOnce, MaxAttempt;
  }

  // ---------------------------------------------------------------- first in, first out

  lemma HandleCount(c: Config, db: Db, r: RunId, results: Results)
    requires ConfigOk(c) && RunningCount(db.runs) >= c.maxRuns
    ensures HandleNew(c, db, r, results) == if IsPending(db, r) && c.pipeline(r) == [] then SetRun(db, r, Failed) else db
    ensures RunningCount(HandleNew(c, db, r, results).runs) >= c.maxRuns
  {
    if IsPending(db, r) && c.pipeline(r) == [] {
      assert RunningRuns(SetRun(db, r, Failed).runs) == RunningRuns(db.runs);
    }
  }

  /** At the limit a drain claims nobody. */
  lemma {:induction false} FullDrain(c: Config, db: Db, queue: seq<RunId>, results: Results, q: RunId)
    requires ConfigOk(c) && RunningCount(db.runs) >= c.maxRuns && IsPending(db, q) && c.pipeline(q) != []
    ensures IsPending(DrainAll(c, db, queue, results), q)
    decreases |queue|
  {
    if queue != [] {
      HandleCount(c, db, queue[0], results);
      hide HandleNew, RunningCount;
      FullDrain(c, HandleNew(c, db, queue[0], results), queue[1..], results, q);
    }
  }

  /** A drain by itself never takes up a run before another one that stands earlier in its queue: if it leaves
      the earlier one pending, it leaves the later one pending too. */
  lemma {:induction false} DrainInOrder(c: Config, db: Db, queue: seq<RunId>, results: Results, i: nat, j: nat)
    requires ConfigOk(c) && i < j < |queue| && IsPending(db, queue[i]) && IsPending(db, queue[j])
    requires c.pipeline(queue[i]) != [] && c.pipeline(queue[j]) != []
    requires forall k | 0 <= k < j :: queue[k] != queue[j]
    requires IsPending(DrainAll(c, db, queue, results), queue[i])
    ensures IsPending(DrainAll(c, db, queue, results), queue[j])
    decreases |queue|
  {
    hide HandleNew, RunningCount;
    var r, rest := queue[0], queue[1..];
    var db1 := HandleNew(c, db, r, results);
    HandleNewRuns(c, db, r, results);
    if i == 0 {
      DrainKeeps(c, db1, rest, results);
      if RunningCount(db.runs) >= c.maxRuns {
        FullDrain(c, db, queue, results, queue[j]);
      }
    } else {
      assert rest[i - 1] == queue[i] && rest[j - 1] == queue[j];
      if r == queue[i] {
        DrainKeeps(c, db1, rest, results);
      }
      assert IsPending(db1, queue[j]);
      if IsPending(db1, queue[i]) {
        DrainInOrder(c, db1, rest, results, i - 1, j - 1);
      } else {
        DrainKeeps(c, db1, rest, results);
      }
    }
  }
}

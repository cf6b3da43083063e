/**
 The run lifecycle as a state machine.

 One `Event` is what happens between two awaits of one activation, or a write from outside
 the daemon. Any number of activations (realtime events, drains, the startup recovery) are
 interleaved with crashes, with operators triggering runs, and with cancellations. An event
 that cannot happen in a state leaves it as it was, so `Next` is total and a run of the
 system is any sequence of events.
 */
module RunMachine {
  import opened Wrappers
  import opened PipelineRuns

  /** What is left to do after the run being handled: nothing, the rest of a drain queue,
      or the rest of the stale rows. */
  datatype Driver = ByEvent | ByDrain(queue: seq<RunId>) | ByRecovery

  /** Results of the steps before a driver starts. */
  datatype Prelaunch = Ready | NoDriver | NoArtifacts | AcquireFails

  /** A driver execution: it threw, reported an error or wrote an unreadable document
      (`Broken`), or gave a verdict. */
  datatype Outcome = Broken | Said(v: Verdict)

  datatype After = ThenFinish(status: RunStatus) | ThenRetry | ThenRoute(v: Verdict)

  /** Where an activation is suspended (`Over` once it has ended). The four states from `Lock` to `Commit` are the
      transaction of tryAcquireRunningSlot. */
  datatype Pc =
    | Over
    | Idle
    | ListPending
    | GetRun(r: RunId)
    | GetStages(r: RunId)
    | FailEmpty(r: RunId)
    | Lock(r: RunId)
    | Snapshot(r: RunId)
    | Write(r: RunId, count: nat)
    | Commit(r: RunId)
    | GetStageRuns(r: RunId)
    | ReadMax(r: RunId, s: StageId, cause: Cause)
    | Insert(r: RunId, s: StageId, n: nat, cause: Cause)
    | Gate(r: RunId, i: nat)
    | Start(r: RunId, i: nat)
    | Exec(r: RunId, i: nat)
    | Drive(r: RunId, i: nat)
    | Check(r: RunId, i: nat, o: Outcome)
    | Complete(r: RunId, i: nat, status: RowStatus, after: After)
    | Finish(r: RunId, final: RunStatus)
    | Hook(r: RunId)
    | RecoverRow(r: RunId, i: nat)
    | RecoverRun(r: RunId, i: nat)

  datatype Task = Task(driver: Driver, pc: Pc)

  /** The two remaining awaits of a trigger call that has created its run. */
  datatype SeedPc = SeedRead(s: StageId) | SeedInsert(s: StageId, n: nat)

  /** `stale` holds the rows the startup recovery has still to visit. `claims`, `late` and
      `cancelUsed` are history: every committed claim in order, the runs whose seed row was
      inserted when the run was no longer pending, and whether anything was ever cancelled. */
  datatype State = State(db: Db, inFlight: set<RunId>, tasks: map<nat, Task>, lock: Option<nat>,
                         stale: set<nat>, up: bool, seeds: map<RunId, SeedPc>,
                         claims: seq<RunId>, late: set<RunId>, cancelUsed: bool)

  /** What the environment decides when an activation resumes. */
  datatype Choice = Go | Queue(queue: seq<RunId>) | Visit(row: nat, alive: bool)
                  | Prep(p: Prelaunch) | Ran(o: Outcome) | Subject(gone: bool)

  datatype Event =
    | NewRun(r: RunId)
    | Trigger(r: RunId, s: StageId)
    | TriggerRead(r: RunId)
    | TriggerInsert(r: RunId)
    | CancelRow(i: nat)
    | CancelRun(r: RunId)
    | Deliver(t: nat, r: RunId)
    | StartDrain(t: nat)
    | Crash
    | Boot(t: nat)
    | Throw(t: nat)
    | Act(t: nat, choice: Choice)

  // ---------------------------------------------------------------- resuming one activation

  /** What an activation does next: wait where it is, go on to another await, or return. */
  datatype Move = Stay | At(pc: Pc) | Done

  function Handled(pc: Pc): Option<RunId> {
    if pc.Over? || pc.Idle? || pc.ListPending? then None else Some(pc.r)
  }

  /** The stage_run row an activation is working on. */
  function RowOf(pc: Pc): Option<nat> {
    match pc
    case Gate(_, i) => Some(i)
    case Start(_, i) => Some(i)
    case Exec(_, i) => Some(i)
    case Drive(_, i) => Some(i)
    case Check(_, i, _) => Some(i)
    case Complete(_, i, _, _) => Some(i)
    case RecoverRow(_, i) => Some(i)
    case RecoverRun(_, i) => Some(i)
    case _ => None
  }

  function FirstPending(rows: seq<StageRun>, r: RunId): (i: Option<nat>)
    ensures i.Some? ==> i.value < |rows| && rows[i.value].run == r && rows[i.value].status == RowPending
  {
    if rows == [] then None
    else
      var before := FirstPending(rows[..|rows| - 1], r);
      if before.Some? then before
      else if rows[|rows| - 1].run == r && rows[|rows| - 1].status == RowPending then Some(|rows| - 1)
      else None
  }

  /** The seed taken up is the first pending row of the run, and none exactly when it has none. */
  lemma {:induction false} FirstPendingExact(rows: seq<StageRun>, r: RunId)
    ensures var i := FirstPending(rows, r);
            && (i.None? <==> forall j | 0 <= j < |rows| && rows[j].run == r :: rows[j].status != RowPending)
            && (i.Some? ==> forall j | 0 <= j < i.value && rows[j].run == r :: rows[j].status != RowPending)
  {
    if rows != [] {
      var init := rows[..|rows| - 1];
      FirstPendingExact(init, r);
      assert forall j | 0 <= j < |init| :: rows[j] == init[j];
    }
  }

  predicate IsPending(db: Db, r: RunId) {
    r in db.runs && db.runs[r] == Pending
  }

  /** handleNewRun: the read of the run, of its stages, the claim, and the choice of the first stage.
      The four claim states are tryAcquireRunningSlot: advisory lock, statement snapshot,
      conditional write, commit. */
  function Handle(c: Config, db: Db, lockFree: bool, pc: Pc): (Db, Move) {
    match pc
    case GetRun(r) => (db, if IsPending(db, r) then At(GetStages(r)) else Done)
    case GetStages(r) => (db, At(if c.pipeline(r) == [] then FailEmpty(r) else Lock(r)))
    case FailEmpty(r) => (SetRun(db, r, Failed), Done)
    case Lock(r) => (db, if lockFree then At(Snapshot(r)) else Stay)
    case Snapshot(r) => (db, At(Write(r, RunningCount(db.runs))))
    case Write(r, count) => (db, if IsPending(db, r) && count < c.maxRuns then At(Commit(r)) else Done)
    case Commit(r) => (SetRun(db, r, Running), At(GetStageRuns(r)))
    case GetStageRuns(r) =>
      var seed := FirstPending(db.rows, r);
      (db,
       if seed.Some? && db.rows[seed.value].stage in c.pipeline(r) then At(Gate(r, seed.value))
       else if c.pipeline(r) == [] then Stay
       else At(ReadMax(r, c.pipeline(r)[0], Entry)))
    case _ => (db, Stay)
  }

  /** createStageRun, then launchStage from the pre-gate to the end of the driver. */
  function Launch(c: Config, db: Db, pc: Pc, k: Choice): (Db, Move)
    requires RowOf(pc).Some? ==> RowOf(pc).value < |db.rows|
  {
    match pc
    case ReadMax(r, s, cause) => (db, At(Insert(r, s, MaxAttempt(db.rows, r, s), cause)))
    case Insert(r, s, n, cause) => (AddRow(db, r, s, n + 1, cause), At(Gate(r, |db.rows|)))
    case Gate(r, i) =>
      var s := db.rows[i].stage;
      if s in c.stages && c.stages[s].held then (SetRow(db, i, RowPending), Done)
      else if !k.Prep? then (db, Stay)
      else (db, At(
        match k.p
        case Ready => Start(r, i)
        case NoDriver => Complete(r, i, RowFailed, ThenFinish(Failed))
        case NoArtifacts => Complete(r, i, RowFailed, ThenFinish(Failed))
        case AcquireFails => Complete(r, i, RowFailed, ThenRetry)))
    case Start(r, i) => (SetRow(db, i, RowRunning), At(Exec(r, i)))
    case Exec(r, i) => (db, At(if c.hasRunner then Drive(r, i) else Complete(r, i, RowFailed, ThenFinish(Failed))))
    case Drive(r, i) => (db, if k.Ran? then At(Check(r, i, k.o)) else Stay)
    case Check(r, i, o) =>
      (db, At(
        if db.rows[i].status == RowCancelled then Finish(r, Cancelled)
        else if o.Said? then Complete(r, i, RowCompleted, ThenRoute(o.v))
        else Complete(r, i, RowFailed, ThenRetry)))
    case _ => (db, Stay)
  }

  function Retrying(c: Config, r: RunId, row: StageRun): Pc {
    if MayRetry(c, row.stage, row.attempt) then ReadMax(r, row.stage, Retry(row.attempt))
    else Finish(r, Failed)
  }

  /** applyVerdict, or the end the failure path decided on. `gone`: the issue was deleted meanwhile. */
  function Follow(c: Config, r: RunId, row: StageRun, after: After, gone: bool): (pc: Pc)
    requires after.ThenRoute? ==> row.stage in c.stages
    ensures (pc.Finish? && pc.r == r)
         || (pc.ReadMax? && pc.r == r && (pc.s in c.pipeline(r) || pc.s == row.stage))
  {
    match after
    case ThenFinish(final) => Finish(r, final)
    case ThenRetry => Retrying(c, r, row)
    case ThenRoute(v) =>
      if gone then Finish(r, Failed)
      else
        match RouteTo(c, r, c.stages[row.stage], v)
        case End(final) => Finish(r, final)
        case To(next) => ReadMax(r, next, Entry)
  }

  /** completeStageRun with applyVerdict or handleStageFailed, finishRun, and the body of the
      recovery loop. */
  function Settle(c: Config, db: Db, pc: Pc, k: Choice): (Db, Move)
    requires RowOf(pc).Some? ==> RowOf(pc).value < |db.rows|
  {
    match pc
    case Complete(r, i, status, after) =>
      var row := db.rows[i];
      if after.ThenRoute? && (!k.Subject? || row.stage !in c.stages) then (db, Stay)
      else (CompleteRow(db, i, status), At(Follow(c, r, row, after, k.Subject? && k.gone)))
    case Finish(r, final) => (SetRun(db, r, final), At(Hook(r)))
    case Hook(r) => (db, Done)
    case RecoverRow(r, i) => (CompleteRow(db, i, RowFailed), At(RecoverRun(r, i)))
    case RecoverRun(r, i) => (db, At(Retrying(c, r, db.rows[i])))
    case _ => (db, Stay)
  }

  predicate InHandle(pc: Pc) {
    pc.GetRun? || pc.GetStages? || pc.FailEmpty? || pc.Lock? || InClaim(pc) || pc.GetStageRuns?
  }

  predicate InClaim(pc: Pc) {
    pc.Snapshot? || pc.Write? || pc.Commit?
  }

  predicate InLaunch(pc: Pc) {
    pc.ReadMax? || pc.Insert? || pc.Gate? || pc.Start? || pc.Exec? || pc.Drive? || pc.Check?
  }

  function Resume(c: Config, db: Db, lockFree: bool, pc: Pc, k: Choice): (Db, Move) {
    if RowOf(pc).Some? && |db.rows| <= RowOf(pc).value then (db, Stay)
    else if InHandle(pc) then Handle(c, db, lockFree, pc)
    else if InLaunch(pc) then Launch(c, db, pc, k)
    else Settle(c, db, pc, k)
  }

  /** Where `m` leaves an activation: returning ends an event's activation and gives a drain or
      the recovery its loop back. */
  function PcAfter(task: Task, m: Move): Pc {
    match m
    case Stay => task.pc
    case At(pc) => pc
    case Done => if task.driver.ByEvent? then Over else Idle
  }

  /** The transaction-scoped lock: taken in `Lock`, released when the transaction ends. */
  function LockAfter(lock: Option<nat>, t: nat, pc: Pc, m: Move): Option<nat> {
    if pc.Lock? && m.At? then Some(t)
    else if pc.Commit? || (pc.Write? && m.Done?) then None
    else lock
  }

  /** handleNewRun leaves inFlight when it returns; recovery's relaunches were never in it. */
  function Apply(s: State, t: nat, db: Db, m: Move): State
    requires t in s.tasks && Handled(s.tasks[t].pc).Some?
  {
    var task := s.tasks[t];
    s.(db := db,
       tasks := s.tasks[t := task.(pc := PcAfter(task, m))],
       lock := LockAfter(s.lock, t, task.pc, m),
       claims := if task.pc.Commit? then s.claims + [task.pc.r] else s.claims,
       inFlight := if m.Done? && !task.driver.ByRecovery? then s.inFlight - {task.pc.r} else s.inFlight)
  }

  /** The row the recovery loop visits next: any row it has not seen. */
  predicate Visits(s: State, k: Choice) {
    k.Visit? && k.row in s.stale && k.row < |s.db.rows|
  }

  /** Between two awaits of a loop. A drain takes the next entry of its queue unless that run is
      being handled already. Recovery skips a row whose process is alive, only fails one whose
      stage is gone, and drains once it has seen every row. */
  function NextTask(c: Config, s: State, task: Task, k: Choice): Task {
    match task
    case Task(ByEvent, _) => Task(ByEvent, Over)
    case Task(ByDrain(queue), ListPending) =>
      if k.Queue? && forall r <- k.queue :: IsPending(s.db, r) then Task(ByDrain(k.queue), Idle) else task
    case Task(ByDrain(queue), Idle) =>
      if queue == [] then Task(ByDrain([]), Over)
      else Task(ByDrain(queue[1..]), if queue[0] in s.inFlight then Idle else GetRun(queue[0]))
    case Task(ByRecovery, Idle) =>
      if s.stale == {} then Task(ByDrain([]), ListPending)
      else if Visits(s, k) && !k.alive && s.db.rows[k.row].stage in c.stages
      then Task(ByRecovery, RecoverRow(s.db.rows[k.row].run, k.row))
      else task
    case _ => task
  }

  function NextItem(c: Config, s: State, t: nat, k: Choice): State
    requires t in s.tasks
  {
    var task := s.tasks[t];
    var visited := task == Task(ByRecovery, Idle) && Visits(s, k);
    var took := task.driver.ByDrain? && task.pc.Idle? && task.driver.queue != [];
    s.(tasks := s.tasks[t := NextTask(c, s, task, k)],
       inFlight := if took then s.inFlight + {task.driver.queue[0]} else s.inFlight,
       stale := if visited then s.stale - {k.row} else s.stale,
       db := if visited && !k.alive && s.db.rows[k.row].stage !in c.stages
             then CompleteRow(s.db, k.row, RowFailed) else s.db)
  }

  function ActStep(c: Config, s: State, t: nat, k: Choice): State
    requires t in s.tasks
  {
    var pc := s.tasks[t].pc;
    if Handled(pc).None? then NextItem(c, s, t, k)
    else
      var (db, m) := Resume(c, s.db, s.lock.None?, pc, k);
      Apply(s, t, db, m)
  }

  /** An exception unwinds the activation: `finally` leaves inFlight, the transaction rolls back. */
  function Unwind(s: State, t: nat): State
    requires t in s.tasks
  {
    var held := Handled(s.tasks[t].pc);
    var free := s.tasks[t].driver != ByRecovery && held.Some?;
    s.(tasks := s.tasks[t := s.tasks[t].(pc := Over)],
       inFlight := if free then s.inFlight - {held.value} else s.inFlight,
       lock := if s.lock == Some(t) then None else s.lock)
  }

  // ---------------------------------------------------------------- all events

  /** The claim's uncommitted write holds the row lock of its run. */
  predicate RowLocked(s: State, r: RunId) {
    s.lock.Some? && s.lock.value in s.tasks && s.tasks[s.lock.value].pc == Commit(r)
  }

  function Next(c: Config, s: State, e: Event): State {
    match e
    case NewRun(r) =>
      if r in s.db.runs then s else s.(db := s.db.(runs := s.db.runs[r := Pending]))
    case Trigger(r, stage) =>
      if r in s.db.runs || stage !in c.stages then s
      else s.(db := s.db.(runs := s.db.runs[r := Pending]), seeds := s.seeds[r := SeedRead(stage)])
    case TriggerRead(r) =>
      if r in s.seeds && s.seeds[r].SeedRead? then
        s.(seeds := s.seeds[r := SeedInsert(s.seeds[r].s, MaxAttempt(s.db.rows, r, s.seeds[r].s))])
      else s
    case TriggerInsert(r) =>
      if r in s.seeds && s.seeds[r].SeedInsert? then
        s.(db := AddRow(s.db, r, s.seeds[r].s, s.seeds[r].n + 1, Seed), seeds := s.seeds - {r},
           late := if IsPending(s.db, r) then s.late else s.late + {r})
      else s
    case CancelRow(i) => s.(db := CompleteRow(s.db, i, RowCancelled), cancelUsed := true)
    case CancelRun(r) =>
      if RowLocked(s, r) then s else s.(db := SetRun(s.db, r, Cancelled), cancelUsed := true)
    case Deliver(t, r) =>
      if !s.up || t in s.tasks || r in s.inFlight then s
      else s.(inFlight := s.inFlight + {r}, tasks := s.tasks[t := Task(ByEvent, GetRun(r))])
    case StartDrain(t) =>
      if !s.up || t in s.tasks then s else s.(tasks := s.tasks[t := Task(ByDrain([]), ListPending)])
    case Crash => s.(inFlight := {}, tasks := map[], lock := None, stale := {}, up := false)
    case Boot(t) =>
      if s.up || s.tasks != map[] then s
      else s.(up := true, tasks := map[t := Task(ByRecovery, Idle)],
              stale := set i: nat | i < |s.db.rows| && s.db.rows[i].status == RowRunning)
    case Throw(t) => if t in s.tasks then Unwind(s, t) else s
    case Act(t, k) => if t in s.tasks then ActStep(c, s, t, k) else s
  }

  /** The states a sequence of events passes through end in this one. */
  function Run(c: Config, s: State, events: seq<Event>): State
    decreases |events|
  {
    if events == [] then s else Run(c, Next(c, s, events[0]), events[1..])
  }

  predicate IsCancel(e: Event) {
    e.CancelRow? || e.CancelRun?
  }
}

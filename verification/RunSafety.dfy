/** Statuses of runs over whole executions: with no cancellation they only move forward. */
module RunSafety {
  import opened Wrappers
  import opened PipelineRuns
  import opened RunMachine
  import opened RunSlots
  import opened RunInvariant

  const FINAL := {Completed, Failed, Blocked}

  /** One step of a run's life. */
  predicate Moves(c: Config, r: RunId, a: RunStatus, b: RunStatus) {
    || a == b
    || (a == Pending && b == Running)
    || (a == Pending && b == Failed && c.pipeline(r) == [])
    || (a == Running && b in FINAL)
  }

  /** Any number of steps. */
  predicate Later(a: RunStatus, b: RunStatus) {
    a == b || (a == Pending && (b == Running || b in FINAL)) || (a == Running && b in FINAL)
  }

  ghost predicate SafePc(db: Db, pc: Pc) {
    && (pc.GetStages? || pc.FailEmpty? ==> IsPending(db, pc.r))
    && (Owned(pc).Some? ==> pc.r in db.runs && db.runs[pc.r] == Running)
    && (pc.Finish? ==> pc.final in FINAL)
    && (RowOf(pc).Some? ==> RowOf(pc).value < |db.rows| && db.rows[RowOf(pc).value].status != RowCancelled)
  }

  ghost predicate RunningOwned(db: Db) {
    forall i | 0 <= i < |db.rows| && db.rows[i].status == RowRunning ::
      db.rows[i].run in db.runs && db.runs[db.rows[i].run] == Running
  }

  ghost predicate StaleSafe(db: Db, stale: set<nat>) {
    forall i :: i in stale && i < |db.rows| ==>
      && db.rows[i].run in db.runs && db.runs[db.rows[i].run] == Running
      && db.rows[i].status != RowCancelled
  }

  /** With no cancellation so far, what somebody drives is running, and only that. */
  ghost predicate SafeInv(s: State) {
    && !s.cancelUsed && RunningOwned(s.db) && StaleSafe(s.db, s.stale)
    && forall t :: t in s.tasks ==> SafePc(s.db, s.tasks[t].pc)
  }

  // ---------------------------------------------------------------- one activation

  /** How a step about `pc`'s run changes the tables, as far as statuses go. */
  ghost predicate SafeStep(c: Config, db: Db, pc: Pc, db': Db, m: Move)
    requires Handled(pc).Some?
  {
    && (m.At? ==> SafePc(db', m.pc))
    && |db.rows| <= |db'.rows|
    && (forall i | 0 <= i < |db.rows| :: db'.rows[i] == db.rows[i] || OwnRow(pc, i, db.rows[i], db'.rows[i]))
    && (forall i | |db.rows| <= i < |db'.rows| :: db'.rows[i].status == RowPending)
    && (forall q | q in db.runs :: q in db'.runs && Moves(c, q, db.runs[q], db'.runs[q]))
    && (forall q | q in db.runs && db'.runs[q] != db.runs[q] ::
          q == pc.r && (pc.FailEmpty? || pc.Commit? || pc.Finish?))
    && (m.Stay? ==> db' == db)
  }

  predicate OwnRow(pc: Pc, i: nat, a: StageRun, b: StageRun) {
    && Owned(pc) == Some(a.run) && a.run == b.run && RowOf(pc) == Some(i)
    && (b.status == RowRunning ==> pc.Start?) && b.status != RowCancelled
  }

  lemma HandleSafe(c: Config, db: Db, lockFree: bool, pc: Pc)
    requires InHandle(pc) && SafePc(db, pc) && PcOk(c, db, pc) && (pc.Commit? ==> IsPending(db, pc.r))
    ensures var (db', m) := Handle(c, db, lockFree, pc); SafeStep(c, db, pc, db', m)
  {
    hide RunningCount;
  }

  lemma LaunchSafe(c: Config, db: Db, pc: Pc, k: Choice)
    requires InLaunch(pc) && SafePc(db, pc) && PcOk(c, db, pc)
    ensures var (db', m) := Launch(c, db, pc, k); SafeStep(c, db, pc, db', m)
  {
    hide MaxAttempt, RetryBelow, CauseOk;
  }

  lemma SettleSafe(c: Config, db: Db, pc: Pc, k: Choice)
    requires Handled(pc).Some? && !InHandle(pc) && !InLaunch(pc) && SafePc(db, pc) && PcOk(c, db, pc)
    ensures var (db', m) := Settle(c, db, pc, k); SafeStep(c, db, pc, db', m)
  {
    hide RetryBelow, CauseOk, RouteTo;
  }

  lemma ResumeSafe(c: Config, db: Db, lockFree: bool, pc: Pc, k: Choice)
    requires Handled(pc).Some? && SafePc(db, pc) && PcOk(c, db, pc) && (pc.Commit? ==> IsPending(db, pc.r))
    ensures var (db', m) := Resume(c, db, lockFree, pc, k); SafeStep(c, db, pc, db', m)
  {
    hide Handle, Launch, Settle, SafeStep;
    if InHandle(pc) {
      HandleSafe(c, db, lockFree, pc);
    } else if InLaunch(pc) {
      LaunchSafe(c, db, pc, k);
    } else {
      SettleSafe(c, db, pc, k);
    }
  }

  // ---------------------------------------------------------------- the machine

  lemma StepRows(c: Config, db: Db, pc: Pc, db': Db, m: Move)
    requires Handled(pc).Some? && SafeStep(c, db, pc, db', m) && RunningOwned(db)
    requires SafePc(db, pc) && OnlyOwnRow(db, pc) && (pc.Commit? ==> IsPending(db, pc.r))
    ensures RunningOwned(db')
  {
  }

  lemma StepOther(c: Config, db: Db, pc: Pc, db': Db, m: Move, inFlight: set<RunId>, driver: Driver, other: Task)
    requires Handled(pc).Some? && SafeStep(c, db, pc, db', m) && PcOk(c, db, pc) && SafePc(db, pc)
    requires TaskOk(c, db, inFlight, other) && SafePc(db, other.pc)
    requires Apart(Task(driver, pc), other) && Apart(other, Task(driver, pc))
    requires (InHandle(pc) ==> !driver.ByRecovery?) && (pc.Commit? ==> IsPending(db, pc.r))
    ensures SafePc(db', other.pc)
  {
    hide OnlyOwnRow, RetryBelow, CauseOk;
  }

  lemma StepStale(c: Config, db: Db, pc: Pc, db': Db, m: Move, stale: set<nat>)
    requires Handled(pc).Some? && SafeStep(c, db, pc, db', m) && PcOk(c, db, pc) && SafePc(db, pc)
    requires Undriven(db, stale, pc) && StaleSafe(db, stale) && forall i :: i in stale ==> i < |db.rows|
    requires pc.Commit? ==> IsPending(db, pc.r)
    ensures StaleSafe(db', stale)
  {
    hide RetryBelow, CauseOk;
  }

  /** No cancellation, one step: no status moves backwards. */
  ghost predicate MovesAll(c: Config, db: Db, db': Db) {
    forall r | r in db.runs :: r in db'.runs && Moves(c, r, db.runs[r], db'.runs[r])
  }

  lemma SafeAct(c: Config, s: State, t: nat, k: Choice)
    requires RunInv(c, s) && SafeInv(s) && t in s.tasks && Handled(s.tasks[t].pc).Some?
    ensures var (db', m) := Resume(c, s.db, s.lock.None?, s.tasks[t].pc, k);
            SafeInv(Apply(s, t, db', m)) && MovesAll(c, s.db, db')
  {
    hide Resume, DataOk, PcOk, OnlyOwnRow, SafePc, StaleSafe, RunningOwned;
    var task := s.tasks[t];
    var (db', m) := Resume(c, s.db, s.lock.None?, task.pc, k);
    assert TaskOk(c, s.db, s.inFlight, task) && SafePc(s.db, task.pc);
    ResumeSafe(c, s.db, s.lock.None?, task.pc, k);
    StepRows(c, s.db, task.pc, db', m);
    StepStale(c, s.db, task.pc, db', m, s.stale);
    forall q | q in s.tasks && q != t
      ensures SafePc(db', s.tasks[q].pc)
    {
      assert TaskOk(c, s.db, s.inFlight, s.tasks[q]);
      assert Apart(task, s.tasks[q]) && Apart(s.tasks[q], task);
      StepOther(c, s.db, task.pc, db', m, s.inFlight, task.driver, s.tasks[q]);
    }
    StayPut(db', s.tasks[t], m);
    hide Apart, AllApart;
  }

  lemma StayPut(db': Db, task: Task, m: Move)
    requires m.At? ==> SafePc(db', m.pc)
    requires m.Stay? ==> SafePc(db', task.pc)
    ensures SafePc(db', PcAfter(task, m))
  {
  }

  lemma SafeItem(c: Config, s: State, t: nat, k: Choice)
    requires RunInv(c, s) && SafeInv(s) && t in s.tasks && Handled(s.tasks[t].pc).None?
    ensures SafeInv(NextItem(c, s, t, k)) && MovesAll(c, s.db, NextItem(c, s, t, k).db)
  {
    var s' := NextItem(c, s, t, k);
    ItemShape(c, s, t, k);
    IdleSafe(s.db, s'.tasks[t].pc);
    if s.tasks[t] == Task(ByRecovery, Idle) && Visits(s, k) {
      assert StaleOk(c, s.db, s.stale, k.row);
      hide NextItem, RunInv, StaleOk;
      SafeVisit(s, s', t, k.row);
    } else {
      hide NextItem, RunInv, SafePc, RunningOwned;
    }
  }

  lemma IdleSafe(db: Db, pc: Pc)
    ensures Handled(pc).None? || pc.GetRun? ==> SafePc(db, pc)
  {
  }

  /** The recovery loop visits row `i`: it adopts the row, fails it, or leaves it alone. */
  lemma SafeVisit(s: State, s': State, t: nat, i: nat)
    requires SafeInv(s) && i in s.stale && i < |s.db.rows| && t in s.tasks && t in s'.tasks
    requires s' == s.(db := s'.db, tasks := s.tasks[t := s'.tasks[t]], stale := s'.stale, inFlight := s'.inFlight)
    requires s'.stale <= s.stale
    requires s'.db == s.db || s'.db == CompleteRow(s.db, i, RowFailed)
    requires SafePc(s.db, s'.tasks[t].pc) || (s'.db == s.db && s'.tasks[t].pc == RecoverRow(s.db.rows[i].run, i))
    ensures SafeInv(s') && s'.db.runs == s.db.runs
  {
    var db' := s'.db;
    assert |db'.rows| == |s.db.rows| && forall j | 0 <= j < |db'.rows| && j != i :: db'.rows[j] == s.db.rows[j];
    assert SafePc(s.db, s'.tasks[t].pc);
    forall pc | SafePc(s.db, pc)
      ensures SafePc(db', pc)
    {
    }
    hide SafePc;
  }

  /** With no cancellation, every step keeps the invariant and moves statuses forward only. */
  lemma StatusStep(c: Config, s: State, e: Event)
    requires RunInv(c, s) && SafeInv(s) && !IsCancel(e)
    ensures SafeInv(Next(c, s, e)) && MovesAll(c, s.db, Next(c, s, e).db)
  {
    match e
    case Act(t, k) =>
      if t in s.tasks {
        hide RunInv, SafeInv, Resume, NextItem, Apply;
        if Handled(s.tasks[t].pc).Some? { SafeAct(c, s, t, k); } else { SafeItem(c, s, t, k); }
      }
    case _ => SafeOutside(c, s, e);
  }

  lemma SafeOutside(c: Config, s: State, e: Event)
    requires RunInv(c, s) && SafeInv(s) && !IsCancel(e) && !e.Act?
    ensures SafeInv(Next(c, s, e)) && MovesAll(c, s.db, Next(c, s, e).db)
  {
    hide RunInv, ActStep;
    if e.TriggerInsert? {
      SafeSeed(c, s, e.r);
    } else if e.Throw? || e.Deliver? || e.StartDrain? {
      SafeSpawn(c, s, e);
    }
  }

  lemma SafeSpawn(c: Config, s: State, e: Event)
    requires SafeInv(s) && (e.Throw? || e.Deliver? || e.StartDrain?)
    ensures SafeInv(Next(c, s, e)) && Next(c, s, e).db == s.db
  {
    hide RunningOwned, StaleSafe, ActStep;
  }

  lemma SafeSeed(c: Config, s: State, r: RunId)
    requires RunInv(c, s) && SafeInv(s)
    ensures SafeInv(Next(c, s, TriggerInsert(r))) && MovesAll(c, s.db, Next(c, s, TriggerInsert(r)).db)
  {
    assert forall i :: i in s.stale ==> StaleOk(c, s.db, s.stale, i) && i < |s.db.rows|;
    hide DataOk, TaskOk, AllApart, StaleOk;
  }

  lemma {:induction false} StatusKept(c: Config, s: State, events: seq<Event>)
    requires RunInv(c, s) && SafeInv(s) && forall e :: e in events ==> !IsCancel(e)
    ensures var s' := Run(c, s, events);
            && RunningOwned(s'.db)
            && forall r :: r in s.db.runs ==> r in s'.db.runs && Later(s.db.runs[r], s'.db.runs[r])
    decreases |events|
  {
    if events != [] {
      hide RunInv, SafeInv, Next, RunningOwned;
      InvStep(c, s, events[0]);
      StatusStep(c, s, events[0]);
      StatusKept(c, Next(c, s, events[0]), events[1..]);
    }
  }

  /** Duplicate events, drains, crashes and recoveries included, a run goes from pending to
      running to one final status and stays there, or fails at once when it has no stages; and
      only a running run has a running stage. */
  lemma StatusSafety(c: Config, s: State, events: seq<Event>)
    requires Init(c, s) && RunningOwned(s.db) && forall e :: e in events ==> !IsCancel(e)
    ensures var s' := Run(c, s, events);
            && RunningOwned(s'.db)
            && forall r :: r in s.db.runs ==> r in s'.db.runs && Later(s.db.runs[r], s'.db.runs[r])
  {
    InitInv(c, s);
    StatusKept(c, s, events);
  }
}

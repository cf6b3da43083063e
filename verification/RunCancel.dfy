/** Cancellation: what it makes permanent. */
module RunCancel {
  import opened Wrappers
  import opened PipelineRuns
  import opened RunMachine
  import opened RunSlots
  import opened RunInvariant

  // ---------------------------------------------------------------- stage rows

  predicate CancelledRow(db: Db, i: nat) {
    i < |db.rows| && db.rows[i].started && db.rows[i].status == RowCancelled
  }

  lemma ResumeCancelled(c: Config, db: Db, lockFree: bool, pc: Pc, k: Choice, i: nat)
    requires Handled(pc).Some? && PcOk(c, db, pc) && CancelledRow(db, i)
    ensures CancelledRow(Resume(c, db, lockFree, pc, k).0, i)
  {
    hide RetryBelow, CauseOk, MaxAttempt, RunningCount;
  }

  lemma CancelledStep(c: Config, s: State, e: Event, i: nat)
    requires RunInv(c, s) && CancelledRow(s.db, i)
    ensures CancelledRow(Next(c, s, e).db, i)
  {
    if e.Act? && e.t in s.tasks {
      assert TaskOk(c, s.db, s.inFlight, s.tasks[e.t]);
      if Handled(s.tasks[e.t].pc).Some? {
        ResumeCancelled(c, s.db, s.lock.None?, s.tasks[e.t].pc, e.choice, i);
        hide Resume;
      }
    }
  }

  lemma {:induction false} CancelledKept(c: Config, s: State, events: seq<Event>, i: nat)
    requires RunInv(c, s) && CancelledRow(s.db, i)
    ensures CancelledRow(Run(c, s, events).db, i)
    decreases |events|
  {
    if events != [] {
      hide RunInv, CancelledRow, Next;
      InvStep(c, s, events[0]);
      CancelledStep(c, s, events[0], i);
      CancelledKept(c, Next(c, s, events[0]), events[1..], i);
    }
  }

  /** Once a row that had been running is cancelled, no executor, recovery or later cancellation
      ever changes its status. */
  lemma CancelSticks(c: Config, s: State, before: seq<Event>, after: seq<Event>, i: nat)
    requires Init(c, s) && CancelledRow(Run(c, s, before).db, i)
    ensures CancelledRow(Run(c, Run(c, s, before), after).db, i)
  {
    InitInv(c, s);
    InvAlways(c, s, before);
    CancelledKept(c, Run(c, s, before), after, i);
  }

  // ---------------------------------------------------------------- runs

  /** The awaits of an executor between the start of its driver and the end of a cancelled run. */
  predicate Stopping(c: Config, pc: Pc, r: RunId, i: nat) {
    (pc == Exec(r, i) && c.hasRunner) || pc == Drive(r, i) || (pc.Check? && pc.r == r && pc.i == i) || pc == Finish(r, Cancelled)
  }

  ghost predicate HaltedDb(db: Db, r: RunId, i: nat, from: nat) {
    && CancelledRow(db, i) && db.rows[i].run == r
    && r in db.runs && db.runs[r] == Cancelled
    && (forall j | 0 <= j < |db.rows| && db.rows[j].run == r :: db.rows[j].status != RowRunning)
    && from <= |db.rows|
    && (forall j | from <= j < |db.rows| && db.rows[j].run == r :: db.rows[j].cause == Seed)
  }

  /** Run `r` was cancelled with its row `i`: nobody drives it further, and no stage of it has been
      launched since the table had `from` rows. */
  ghost predicate Halted(c: Config, s: State, r: RunId, i: nat, from: nat) {
    && HaltedDb(s.db, r, i, from)
    && (forall j :: j in s.stale && j < |s.db.rows| ==> s.db.rows[j].run != r)
    && (forall t :: t in s.tasks && Owned(s.tasks[t].pc) == Some(r) ==> Stopping(c, s.tasks[t].pc, r, i))
  }

  lemma OwnHalted(c: Config, db: Db, lockFree: bool, pc: Pc, k: Choice, r: RunId, i: nat, from: nat)
    requires Handled(pc).Some? && PcOk(c, db, pc) && HaltedDb(db, r, i, from) && pc.r == r && Launched(c, db, r)
    requires (pc.Commit? ==> IsPending(db, pc.r)) && (Owned(pc) == Some(r) ==> Stopping(c, pc, r, i))
    ensures var (db', m) := Resume(c, db, lockFree, pc, k);
            && HaltedDb(db', r, i, from)
            && (m.At? && Owned(m.pc) == Some(r) ==> Stopping(c, m.pc, r, i))
  {
    hide RunningCount, MaxAttempt, CauseOk, RetryBelow;
  }

  /** A step about another run leaves the rows and the status of a run alone. */
  ghost predicate ElsewhereOnly(db: Db, db': Db, mine: RunId) {
    && |db.rows| <= |db'.rows|
    && (forall j | 0 <= j < |db.rows| && db.rows[j].run != mine :: db'.rows[j] == db.rows[j])
    && (forall j | 0 <= j < |db.rows| :: db'.rows[j].run == db.rows[j].run)
    && (forall j | |db.rows| <= j < |db'.rows| :: db'.rows[j].run == mine)
    && (forall q | q in db.runs && q != mine :: q in db'.runs && db'.runs[q] == db.runs[q])
  }

  lemma HandleElsewhere(c: Config, db: Db, lockFree: bool, pc: Pc)
    requires InHandle(pc) && PcOk(c, db, pc)
    ensures var (db', m) := Handle(c, db, lockFree, pc);
            && ElsewhereOnly(db, db', pc.r) && (m.At? && Owned(m.pc).Some? ==> m.pc.r == pc.r)
            && (m.Stay? ==> db' == db)
  {
    hide RunningCount, MaxAttempt, CauseOk, RetryBelow, OnlySeeds;
  }

  lemma LaunchElsewhere(c: Config, db: Db, pc: Pc, k: Choice)
    requires InLaunch(pc) && PcOk(c, db, pc)
    ensures var (db', m) := Launch(c, db, pc, k);
            && ElsewhereOnly(db, db', pc.r) && (m.At? && Owned(m.pc).Some? ==> m.pc.r == pc.r)
            && (m.Stay? ==> db' == db)
  {
    hide RunningCount, MaxAttempt, CauseOk, RetryBelow, OnlySeeds;
  }

  lemma SettleElsewhere(c: Config, db: Db, pc: Pc, k: Choice)
    requires Handled(pc).Some? && !InHandle(pc) && !InLaunch(pc) && PcOk(c, db, pc)
    ensures var (db', m) := Settle(c, db, pc, k);
            && ElsewhereOnly(db, db', pc.r) && (m.At? && Owned(m.pc).Some? ==> m.pc.r == pc.r)
            && (m.Stay? ==> db' == db)
  {
    hide RunningCount, MaxAttempt, CauseOk, RetryBelow, OnlySeeds, RouteTo;
  }

  lemma ResumeElsewhere(c: Config, db: Db, lockFree: bool, pc: Pc, k: Choice)
    requires Handled(pc).Some? && PcOk(c, db, pc)
    ensures var (db', m) := Resume(c, db, lockFree, pc, k);
            && ElsewhereOnly(db, db', pc.r) && (m.At? && Owned(m.pc).Some? ==> m.pc.r == pc.r)
            && (m.Stay? ==> db' == db)
  {
    hide Handle, Launch, Settle, ElsewhereOnly;
    if InHandle(pc) {
      HandleElsewhere(c, db, lockFree, pc);
    } else if InLaunch(pc) {
      LaunchElsewhere(c, db, pc, k);
    } else {
      SettleElsewhere(c, db, pc, k);
    }
  }

  lemma ElsewhereHalted(db: Db, db': Db, mine: RunId, r: RunId, i: nat, from: nat)
    requires HaltedDb(db, r, i, from) && ElsewhereOnly(db, db', mine) && mine != r
    ensures HaltedDb(db', r, i, from)
  {
  }

  lemma ResumeHalted(c: Config, db: Db, lockFree: bool, pc: Pc, k: Choice, r: RunId, i: nat, from: nat)
    requires Handled(pc).Some? && PcOk(c, db, pc) && DataOk(c, db) && HaltedDb(db, r, i, from)
    requires (pc.Commit? ==> IsPending(db, pc.r)) && (Owned(pc) == Some(r) ==> Stopping(c, pc, r, i))
    ensures var (db', m) := Resume(c, db, lockFree, pc, k);
            && HaltedDb(db', r, i, from) && ElsewhereOnly(db, db', pc.r)
            && (m.At? && Owned(m.pc) == Some(r) ==> Stopping(c, m.pc, r, i))
            && (m.Stay? ==> db' == db)
  {
    ResumeElsewhere(c, db, lockFree, pc, k);
    if pc.r == r {
      assert RowOk(c, db, db.rows[i]);
      OwnHalted(c, db, lockFree, pc, k, r, i, from);
    } else {
      ElsewhereHalted(db, Resume(c, db, lockFree, pc, k).0, pc.r, r, i, from);
    }
    hide Resume, DataOk, PcOk, HaltedDb, ElsewhereOnly;
  }

  lemma HaltedAct(c: Config, s: State, t: nat, k: Choice, r: RunId, i: nat, from: nat)
    requires RunInv(c, s) && Halted(c, s, r, i, from) && t in s.tasks && Handled(s.tasks[t].pc).Some?
    ensures var (db', m) := Resume(c, s.db, s.lock.None?, s.tasks[t].pc, k); Halted(c, Apply(s, t, db', m), r, i, from)
  {
    var (db', m) := Resume(c, s.db, s.lock.None?, s.tasks[t].pc, k);
    assert TaskOk(c, s.db, s.inFlight, s.tasks[t]);
    assert forall j :: j in s.stale ==> j < |s.db.rows|;
    hide RunInv, Resume, DataOk, PcOk, OnlyOwnRow, HaltedDb;
    ResumeHalted(c, s.db, s.lock.None?, s.tasks[t].pc, k, r, i, from);
    HaltedApply(c, s, t, db', m, r, i, from);
  }

  lemma HaltedApply(c: Config, s: State, t: nat, db': Db, m: Move, r: RunId, i: nat, from: nat)
    requires Halted(c, s, r, i, from) && t in s.tasks && Handled(s.tasks[t].pc).Some?
    requires forall j :: j in s.stale ==> j < |s.db.rows|
    requires HaltedDb(db', r, i, from) && ElsewhereOnly(s.db, db', s.tasks[t].pc.r)
    requires m.At? && Owned(m.pc) == Some(r) ==> Stopping(c, m.pc, r, i)
    ensures Halted(c, Apply(s, t, db', m), r, i, from)
  {
    hide HaltedDb;
  }

  lemma HaltedItem(c: Config, s: State, t: nat, k: Choice, r: RunId, i: nat, from: nat)
    requires Halted(c, s, r, i, from) && t in s.tasks && Handled(s.tasks[t].pc).None?
    ensures Halted(c, NextItem(c, s, t, k), r, i, from)
  {
    ItemShape(c, s, t, k);
    var s' := NextItem(c, s, t, k);
    hide NextItem;
    if s'.db != s.db {
      FailedHalted(s.db, k.row, r, i, from);
    }
    hide HaltedDb;
    HaltedVisit(c, s, s', t, r, i, from, if k.Visit? then k.row else 0);
  }

  lemma HaltedVisit(c: Config, s: State, s': State, t: nat, r: RunId, i: nat, from: nat, row: nat)
    requires Halted(c, s, r, i, from) && HaltedDb(s'.db, r, i, from) && t in s.tasks && t in s'.tasks
    requires s'.tasks == s.tasks[t := s'.tasks[t]] && s'.stale <= s.stale
    requires s'.db == s.db || s'.db == CompleteRow(s.db, row, RowFailed)
    requires Owned(s'.tasks[t].pc).Some? ==>
               row in s.stale && row < |s.db.rows| && s'.tasks[t].pc == RecoverRow(s.db.rows[row].run, row)
    ensures Halted(c, s', r, i, from)
  {
    hide HaltedDb;
    assert forall j | 0 <= j < |s'.db.rows| :: j < |s.db.rows| && s'.db.rows[j].run == s.db.rows[j].run;
  }

  lemma FailedHalted(db: Db, j: nat, r: RunId, i: nat, from: nat)
    requires HaltedDb(db, r, i, from) && j < |db.rows| && db.rows[j].run != r
    ensures HaltedDb(CompleteRow(db, j, RowFailed), r, i, from)
  {
  }

  lemma HaltedStep(c: Config, s: State, e: Event, r: RunId, i: nat, from: nat)
    requires RunInv(c, s) && Halted(c, s, r, i, from)
    ensures Halted(c, Next(c, s, e), r, i, from)
  {
    if e.Act? {
      if e.t in s.tasks {
        hide RunInv, Halted, Resume, NextItem, Apply;
        if Handled(s.tasks[e.t].pc).Some? {
          HaltedAct(c, s, e.t, e.choice, r, i, from);
        } else {
          HaltedItem(c, s, e.t, e.choice, r, i, from);
        }
      }
    } else if e.Deliver? || e.StartDrain? || e.Throw? || e.Crash? || e.Boot? {
      HaltedSpawn(c, s, e, r, i, from);
    } else {
      assert forall j :: j in s.stale ==> j < |s.db.rows|;
      HaltedOutside(c, s, e, r, i, from);
    }
  }

  lemma HaltedOutside(c: Config, s: State, e: Event, r: RunId, i: nat, from: nat)
    requires Halted(c, s, r, i, from) && forall j :: j in s.stale ==> j < |s.db.rows|
    requires e.NewRun? || e.Trigger? || e.TriggerRead? || e.TriggerInsert? || IsCancel(e)
    ensures Halted(c, Next(c, s, e), r, i, from)
  {
    OutsideHalted(c, s, e, r, i, from);
    hide Halted, HaltedDb;
    assert Next(c, s, e).tasks == s.tasks && Next(c, s, e).stale == s.stale;
    HaltedSame(c, s, Next(c, s, e), r, i, from);
  }

  lemma OutsideHalted(c: Config, s: State, e: Event, r: RunId, i: nat, from: nat)
    requires HaltedDb(s.db, r, i, from)
    requires e.NewRun? || e.Trigger? || e.TriggerRead? || e.TriggerInsert? || IsCancel(e)
    ensures HaltedDb(Next(c, s, e).db, r, i, from)
    ensures |s.db.rows| <= |Next(c, s, e).db.rows|
    ensures forall j | 0 <= j < |s.db.rows| :: Next(c, s, e).db.rows[j].run == s.db.rows[j].run
  {
    hide ActStep, MaxAttempt;
  }

  lemma HaltedSame(c: Config, s: State, s': State, r: RunId, i: nat, from: nat)
    requires Halted(c, s, r, i, from) && HaltedDb(s'.db, r, i, from) && s'.tasks == s.tasks && s'.stale == s.stale
    requires forall j :: j in s.stale ==> j < |s.db.rows| <= |s'.db.rows|
    requires forall j | 0 <= j < |s.db.rows| :: j < |s'.db.rows| && s'.db.rows[j].run == s.db.rows[j].run
    ensures Halted(c, s', r, i, from)
  {
  }

  lemma HaltedSpawn(c: Config, s: State, e: Event, r: RunId, i: nat, from: nat)
    requires Halted(c, s, r, i, from) && (e.Deliver? || e.StartDrain? || e.Throw? || e.Crash? || e.Boot?)
    ensures Halted(c, Next(c, s, e), r, i, from)
  {
    if !e.Boot? {
      hide HaltedDb, ActStep;
    } else {
      hide ActStep;
    }
  }

  lemma {:induction false} HaltedAlways(c: Config, s: State, events: seq<Event>, r: RunId, i: nat, from: nat)
    requires RunInv(c, s) && Halted(c, s, r, i, from)
    ensures RunInv(c, Run(c, s, events)) && Halted(c, Run(c, s, events), r, i, from)
    decreases |events|
  {
    if events != [] {
      hide RunInv, Halted, Next;
      InvStep(c, s, events[0]);
      HaltedStep(c, s, events[0], r, i, from);
      HaltedAlways(c, Next(c, s, events[0]), events[1..], r, i, from);
    }
  }

  lemma CancelHalts(c: Config, s: State, events: seq<Event>, t: nat)
    requires RunInv(c, s) && t in s.tasks
    requires var pc := s.tasks[t].pc; (pc.Drive? || pc.Check? || (pc.Exec? && c.hasRunner)) && pc.i < |s.db.rows| && s.db.rows[pc.i].status == RowCancelled
    requires var r := s.tasks[t].pc.r; r in s.db.runs && s.db.runs[r] == Cancelled
    ensures var r := s.tasks[t].pc.r;
            var db := Run(c, s, events).db;
            && r in db.runs && db.runs[r] == Cancelled
            && forall j | |s.db.rows| <= j < |db.rows| && db.rows[j].run == r :: db.rows[j].cause == Seed
  {
    var pc := s.tasks[t].pc;
    assert TaskOk(c, s.db, s.inFlight, s.tasks[t]) && Undriven(s.db, s.stale, pc);
    forall q | q in s.tasks && Owned(s.tasks[q].pc) == Some(pc.r)
      ensures q == t
    {
      assert q != t ==> Apart(s.tasks[t], s.tasks[q]);
    }
    HaltedAlways(c, s, events, pc.r, pc.i, |s.db.rows|);
  }

  /** If a stage and its run are both cancelled before the executor's check, then whatever happens
      afterwards the run is cancelled, and no further stage of it is launched, not even after a
      crash and a recovery. */
  lemma CancelEnds(c: Config, s: State, before: seq<Event>, after: seq<Event>, t: nat)
    requires Init(c, s) && t in Run(c, s, before).tasks
    requires var s1 := Run(c, s, before);
             var pc := s1.tasks[t].pc;
             && (pc.Drive? || pc.Check? || (pc.Exec? && c.hasRunner))
             && pc.i < |s1.db.rows| && s1.db.rows[pc.i].status == RowCancelled
             && pc.r in s1.db.runs && s1.db.runs[pc.r] == Cancelled
    ensures var s1 := Run(c, s, before);
            var r := s1.tasks[t].pc.r;
            var db := Run(c, s1, after).db;
            && r in db.runs && db.runs[r] == Cancelled
            && forall j | |s1.db.rows| <= j < |db.rows| && db.rows[j].run == r :: db.rows[j].cause == Seed
  {
    InitInv(c, s);
    InvAlways(c, s, before);
    CancelHalts(c, Run(c, s, before), after, t);
  }

  /** Past the check nothing looks again: the executor's last write replaces whatever status the run has,
      a cancellation included. */
  lemma LateCancelLost(c: Config, s: State, t: nat, k: Choice)
    requires t in s.tasks && s.tasks[t].pc.Finish? && s.tasks[t].pc.r in s.db.runs
    ensures var pc := s.tasks[t].pc;
            pc.r in Next(c, Next(c, s, CancelRun(pc.r)), Act(t, k)).db.runs
            && Next(c, Next(c, s, CancelRun(pc.r)), Act(t, k)).db.runs[pc.r] == pc.final
  {
    hide Handle, Launch;
  }
}

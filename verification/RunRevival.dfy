/** Which write can take a run from a terminal status back to one that is not. */
module RunRevival {
  import opened Wrappers
  import opened PipelineRuns
  import opened RunMachine
  import opened RunSlots
  import opened RunInvariant

  /** Running, or cancelled since it was claimed. */
  predicate Open(db: Db, r: RunId) {
    r in db.runs && db.runs[r] in {Running, Cancelled}
  }

  /** Only an open run is driven, has a running row, or awaits recovery. */
  ghost predicate OpenInv(s: State) {
    && (forall t :: t in s.tasks && Owned(s.tasks[t].pc).Some? ==> Open(s.db, s.tasks[t].pc.r))
    && RowsOpen(s.db)
    && (forall i :: i in s.stale && i < |s.db.rows| ==> Open(s.db, s.db.rows[i].run))
  }

  ghost predicate RowsOpen(db: Db) {
    forall i | 0 <= i < |db.rows| && db.rows[i].status == RowRunning :: Open(db, db.rows[i].run)
  }

  // ---------------------------------------------------------------- one activation

  /** What a step does to statuses: only its own run's, and at three awaits. */
  lemma ResumeOpen(c: Config, db: Db, lockFree: bool, pc: Pc, k: Choice)
    requires Handled(pc).Some? && DataOk(c, db) && PcOk(c, db, pc) && OnlyOwnRow(db, pc) && (pc.Commit? ==> IsPending(db, pc.r))
    requires RowsOpen(db) && (Owned(pc).Some? ==> Open(db, pc.r))
    ensures var (db', m) := Resume(c, db, lockFree, pc, k);
            && RowsOpen(db') && (m.At? && Owned(m.pc).Some? ==> Open(db', m.pc.r))
            && (forall q | Open(db, q) && (q != pc.r || !(pc.FailEmpty? || pc.Finish?)) :: Open(db', q))
            && |db.rows| <= |db'.rows| && (forall i | 0 <= i < |db.rows| :: db'.rows[i].run == db.rows[i].run)
            && (m.Stay? ==> db' == db)
  {
    var (db', m) := Resume(c, db, lockFree, pc, k);
    ResumeKeepsOpen(c, db, lockFree, pc, k);
    ResumeRunning(c, db, lockFree, pc, k);
    EndsRows(c, db, pc);
    hide Resume, DataOk, PcOk, OnlyOwnRow;
    forall i | 0 <= i < |db'.rows| && db'.rows[i].status == RowRunning
      ensures Open(db', db'.rows[i].run)
    {
      assert i < |db.rows| && Open(db, db.rows[i].run);
    }
  }

  lemma ResumeKeepsOpen(c: Config, db: Db, lockFree: bool, pc: Pc, k: Choice)
    requires Handled(pc).Some? && DataOk(c, db) && PcOk(c, db, pc) && OnlyOwnRow(db, pc) && (pc.Commit? ==> IsPending(db, pc.r))
    ensures var (db', m) := Resume(c, db, lockFree, pc, k);
            && (forall q | Open(db, q) && (q != pc.r || !(pc.FailEmpty? || pc.Finish?)) :: Open(db', q))
            && |db.rows| <= |db'.rows| && (forall i | 0 <= i < |db.rows| :: db'.rows[i].run == db.rows[i].run)
            && (m.Stay? ==> db' == db)
            && (m.At? && Owned(m.pc).Some? ==> m.pc.r == pc.r && (Owned(pc).Some? || pc.Commit?) && pc.r in db.runs)
  {
    ResumeGood(c, db, lockFree, pc, k);
    hide Resume, DataOk, OnlyOwnRow, RetryBelow, CauseOk, RowFits;
  }

  /** A row that is running after the step was so before, or is the one that the step started. */
  lemma ResumeRunning(c: Config, db: Db, lockFree: bool, pc: Pc, k: Choice)
    requires Handled(pc).Some? && PcOk(c, db, pc)
    ensures var (db', m) := Resume(c, db, lockFree, pc, k);
            && (forall i | 0 <= i < |db'.rows| && db'.rows[i].status == RowRunning ::
                  i < |db.rows| && db'.rows[i].run == db.rows[i].run && (db.rows[i].status == RowRunning || (pc.Start? && db.rows[i].run == pc.r)))
            && (pc.Commit? ==> db'.runs == db.runs[pc.r := Running] || pc.r !in db.runs)
            && (m.At? && Owned(m.pc).Some? ==> !pc.FailEmpty? && !pc.Finish?)
  {
    hide Handle, Launch, Settle;
    if RowOf(pc).Some? && |db.rows| <= RowOf(pc).value {
    } else if InHandle(pc) {
      HandleRunning(c, db, lockFree, pc);
    } else if InLaunch(pc) {
      LaunchRunning(c, db, pc, k);
    } else {
      SettleRunning(c, db, pc, k);
    }
  }

  lemma HandleRunning(c: Config, db: Db, lockFree: bool, pc: Pc)
    requires InHandle(pc)
    ensures var (db', m) := Handle(c, db, lockFree, pc);
            && db'.rows == db.rows
            && (pc.Commit? ==> db'.runs == db.runs[pc.r := Running] || pc.r !in db.runs)
            && (m.At? && Owned(m.pc).Some? ==> !pc.FailEmpty?)
  {
    hide RunningCount;
  }

  lemma LaunchRunning(c: Config, db: Db, pc: Pc, k: Choice)
    requires InLaunch(pc) && PcOk(c, db, pc)
    ensures var (db', _) := Launch(c, db, pc, k);
            forall i | 0 <= i < |db'.rows| && db'.rows[i].status == RowRunning ::
              i < |db.rows| && db'.rows[i].run == db.rows[i].run && (db.rows[i].status == RowRunning || (pc.Start? && db.rows[i].run == pc.r))
  {
    hide MaxAttempt, RetryBelow, CauseOk;
  }

  lemma SettleRunning(c: Config, db: Db, pc: Pc, k: Choice)
    requires Handled(pc).Some? && !InHandle(pc) && !InLaunch(pc) && PcOk(c, db, pc)
    ensures var (db', m) := Settle(c, db, pc, k);
            && (forall i | 0 <= i < |db'.rows| && db'.rows[i].status == RowRunning ::
                  i < |db.rows| && db'.rows[i].run == db.rows[i].run && db.rows[i].status == RowRunning)
            && (m.At? && Owned(m.pc).Some? ==> !pc.Finish?)
  {
    hide RouteTo, RetryBelow, CauseOk;
  }

  /** The run that a step ends has no running row. */
  lemma EndsRows(c: Config, db: Db, pc: Pc)
    requires Handled(pc).Some? && DataOk(c, db) && PcOk(c, db, pc) && OnlyOwnRow(db, pc)
    ensures pc.FailEmpty? || pc.Finish? ==> forall i | 0 <= i < |db.rows| && db.rows[i].run == pc.r :: db.rows[i].status != RowRunning
  {
    forall i | 0 <= i < |db.rows| && db.rows[i].status == RowRunning
      ensures Launched(c, db, db.rows[i].run)
    {
      assert RowOk(c, db, db.rows[i]);
    }
    hide DataOk;
  }

  // ---------------------------------------------------------------- the machine

  /** The run that an activation is about to end is nobody else's, and no row of it awaits recovery. */
  lemma EndsAlone(c: Config, s: State, t: nat)
    requires RunInv(c, s) && t in s.tasks && (s.tasks[t].pc.FailEmpty? || s.tasks[t].pc.Finish?)
    ensures forall q | q in s.tasks && q != t && Owned(s.tasks[q].pc).Some? :: s.tasks[q].pc.r != s.tasks[t].pc.r
    ensures forall i | i in s.stale :: i < |s.db.rows| && s.db.rows[i].run != s.tasks[t].pc.r
  {
    var pc := s.tasks[t].pc;
    assert TaskOk(c, s.db, s.inFlight, s.tasks[t]) && Undriven(s.db, s.stale, pc);
    forall q | q in s.tasks && q != t && Owned(s.tasks[q].pc).Some?
      ensures s.tasks[q].pc.r != pc.r
    {
      assert TaskOk(c, s.db, s.inFlight, s.tasks[q]) && Apart(s.tasks[q], s.tasks[t]) && Apart(s.tasks[t], s.tasks[q]);
    }
    forall i | i in s.stale
      ensures i < |s.db.rows| && s.db.rows[i].run != pc.r
    {
      assert StaleOk(c, s.db, s.stale, i);
    }
  }

  lemma ActOpen(c: Config, s: State, t: nat, k: Choice)
    requires RunInv(c, s) && OpenInv(s) && t in s.tasks && Handled(s.tasks[t].pc).Some?
    ensures var (db', m) := Resume(c, s.db, s.lock.None?, s.tasks[t].pc, k); OpenInv(Apply(s, t, db', m))
  {
    var pc := s.tasks[t].pc;
    var (db', m) := Resume(c, s.db, s.lock.None?, pc, k);
    assert TaskOk(c, s.db, s.inFlight, s.tasks[t]);
    assert forall i :: i in s.stale ==> StaleOk(c, s.db, s.stale, i) && i < |s.db.rows|;
    ResumeOpen(c, s.db, s.lock.None?, pc, k);
    if pc.FailEmpty? || pc.Finish? {
      EndsAlone(c, s, t);
    }
    hide Resume, RunInv, RowsOpen, Open, PcOk, OnlyOwnRow, StaleOk;
    OpenApply(s, t, db', m);
  }

  lemma OpenApply(s: State, t: nat, db': Db, m: Move)
    requires OpenInv(s) && t in s.tasks && Handled(s.tasks[t].pc).Some? && RowsOpen(db')
    requires m.At? && Owned(m.pc).Some? ==> Open(db', m.pc.r)
    requires m.Stay? ==> db' == s.db
    requires var pc := s.tasks[t].pc;
             && (forall q | Open(s.db, q) && (q != pc.r || !(pc.FailEmpty? || pc.Finish?)) :: Open(db', q))
             && (pc.FailEmpty? || pc.Finish? ==>
                   && (forall q | q in s.tasks && q != t && Owned(s.tasks[q].pc).Some? :: s.tasks[q].pc.r != pc.r)
                   && (forall i | i in s.stale :: i < |s.db.rows| && s.db.rows[i].run != pc.r))
    requires |s.db.rows| <= |db'.rows| && (forall i | 0 <= i < |s.db.rows| :: db'.rows[i].run == s.db.rows[i].run)
    requires forall i | i in s.stale :: i < |s.db.rows|
    ensures OpenInv(Apply(s, t, db', m))
  {
    hide RowsOpen, Open;
  }

  lemma ItemOpen(c: Config, s: State, t: nat, k: Choice)
    requires OpenInv(s) && t in s.tasks && Handled(s.tasks[t].pc).None?
    ensures OpenInv(NextItem(c, s, t, k))
  {
    ItemShape(c, s, t, k);
    hide NextItem;
  }

  lemma OutsideOpen(c: Config, s: State, e: Event)
    requires RunInv(c, s) && OpenInv(s) && !e.Act?
    ensures OpenInv(Next(c, s, e))
  {
    assert forall i :: i in s.stale ==> StaleOk(c, s.db, s.stale, i) && i < |s.db.rows|;
    hide RunInv, OpenInv, StaleOk, Next;
    if e.Deliver? || e.StartDrain? || e.Throw? || e.Crash? {
      SpawnOpen(c, s, e);
    } else if e.Boot? {
      BootOpen(c, s, e.t);
    } else {
      WriteOpen(c, s, e);
    }
  }

  lemma SpawnOpen(c: Config, s: State, e: Event)
    requires OpenInv(s) && (e.Deliver? || e.StartDrain? || e.Throw? || e.Crash?)
    ensures OpenInv(Next(c, s, e))
  {
    hide ActStep, Open, RowsOpen;
  }

  lemma BootOpen(c: Config, s: State, t: nat)
    requires OpenInv(s)
    ensures OpenInv(Next(c, s, Boot(t)))
  {
    hide ActStep, Open;
  }

  lemma WriteOpen(c: Config, s: State, e: Event)
    requires OpenInv(s) && forall i | i in s.stale :: i < |s.db.rows|
    requires e.NewRun? || e.Trigger? || e.TriggerRead? || e.TriggerInsert? || IsCancel(e)
    ensures OpenInv(Next(c, s, e))
  {
    var s' := Next(c, s, e);
    WriteKeeps(c, s, e);
    hide Next, Open;
  }

  lemma WriteKeeps(c: Config, s: State, e: Event)
    requires e.NewRun? || e.Trigger? || e.TriggerRead? || e.TriggerInsert? || IsCancel(e)
    ensures var s' := Next(c, s, e);
            && s'.tasks == s.tasks && s'.stale == s.stale
            && (forall q | Open(s.db, q) :: Open(s'.db, q))
            && |s.db.rows| <= |s'.db.rows| && (forall i | 0 <= i < |s.db.rows| :: s'.db.rows[i].run == s.db.rows[i].run)
            && (forall i | 0 <= i < |s'.db.rows| && s'.db.rows[i].status == RowRunning :: i < |s.db.rows| && s.db.rows[i].status == RowRunning)
  {
    hide ActStep, MaxAttempt;
  }

  lemma OpenStep(c: Config, s: State, e: Event)
    requires RunInv(c, s) && OpenInv(s)
    ensures OpenInv(Next(c, s, e))
  {
    hide RunInv, OpenInv, Resume, NextItem, Apply;
    if e.Act? {
      if e.t in s.tasks {
        if Handled(s.tasks[e.t].pc).Some? { ActOpen(c, s, e.t, e.choice); } else { ItemOpen(c, s, e.t, e.choice); }
      }
    } else {
      OutsideOpen(c, s, e);
    }
  }

  lemma {:induction false} OpenAlways(c: Config, s: State, events: seq<Event>)
    requires RunInv(c, s) && OpenInv(s)
    ensures RunInv(c, Run(c, s, events)) && OpenInv(Run(c, s, events))
    decreases |events|
  {
    if events != [] {
      hide RunInv, OpenInv, Next;
      InvStep(c, s, events[0]);
      OpenStep(c, s, events[0]);
      OpenAlways(c, Next(c, s, events[0]), events[1..]);
    }
  }

  /** The step takes the run from a terminal status to one that is not. */
  predicate RevivesRun(c: Config, s: State, e: Event, r: RunId) {
    && r in s.db.runs && s.db.runs[r] in TERMINAL
    && r in Next(c, s, e).db.runs && Next(c, s, e).db.runs[r] !in TERMINAL
  }

  /** The executor of a cancelled run is about to write blocked over it. */
  predicate BlocksCancelled(s: State, e: Event, r: RunId) {
    && e.Act? && e.t in s.tasks && s.tasks[e.t].pc == Finish(r, Blocked)
    && r in s.db.runs && s.db.runs[r] == Cancelled
  }

  lemma ResumeRevives(c: Config, db: Db, lockFree: bool, pc: Pc, k: Choice, r: RunId)
    requires Handled(pc).Some? && PcOk(c, db, pc) && (pc.Commit? ==> IsPending(db, pc.r))
    requires r in db.runs && db.runs[r] in TERMINAL
    ensures var db' := Resume(c, db, lockFree, pc, k).0;
            (r in db'.runs && db'.runs[r] !in TERMINAL) <==> pc == Finish(r, Blocked)
  {
    hide MaxAttempt, RunningCount, RetryBelow, CauseOk, RouteTo;
  }

  /** In every reachable state: the only write that revives a terminal run is the final write of blocked over a
      cancellation. */
  lemma RevivesIff(c: Config, s: State, before: seq<Event>, e: Event, r: RunId)
    requires Init(c, s) && RowsOpen(s.db)
    ensures var s1 := Run(c, s, before); RevivesRun(c, s1, e, r) <==> BlocksCancelled(s1, e, r)
  {
    InitInv(c, s);
    OpenAlways(c, s, before);
    StepRevives(c, Run(c, s, before), e, r);
  }

  lemma StepRevives(c: Config, s: State, e: Event, r: RunId)
    requires RunInv(c, s) && OpenInv(s)
    ensures RevivesRun(c, s, e, r) <==> BlocksCancelled(s, e, r)
  {
    hide RunInv, OpenInv, ActStep, MaxAttempt;
    if e.Act? {
      if e.t in s.tasks {
        if Handled(s.tasks[e.t].pc).Some? {
          ActRevives(c, s, e.t, e.choice, r);
        } else {
          ItemRevives(c, s, e.t, e.choice, r);
        }
      }
    }
  }

  lemma ActRevives(c: Config, s: State, t: nat, k: Choice, r: RunId)
    requires RunInv(c, s) && OpenInv(s) && t in s.tasks && Handled(s.tasks[t].pc).Some?
    ensures RevivesRun(c, s, Act(t, k), r) <==> BlocksCancelled(s, Act(t, k), r)
  {
    assert TaskOk(c, s.db, s.inFlight, s.tasks[t]);
    var pc := s.tasks[t].pc;
    assert Owned(pc).Some? ==> Open(s.db, pc.r);
    ActDb(c, s, t, k);
    hide RunInv, OpenInv, OnlyOwnRow, Next, Resume, PcOk;
    if r in s.db.runs && s.db.runs[r] in TERMINAL {
      ResumeRevives(c, s.db, s.lock.None?, pc, k, r);
    }
  }

  lemma ActDb(c: Config, s: State, t: nat, k: Choice)
    requires t in s.tasks && Handled(s.tasks[t].pc).Some?
    ensures Next(c, s, Act(t, k)).db == Resume(c, s.db, s.lock.None?, s.tasks[t].pc, k).0
    ensures forall q | q in s.db.runs :: q in Next(c, s, Act(t, k)).db.runs
  {
    ResumeHasRuns(c, s.db, s.lock.None?, s.tasks[t].pc, k);
    hide Resume;
  }

  lemma ResumeHasRuns(c: Config, db: Db, lockFree: bool, pc: Pc, k: Choice)
    ensures forall q | q in db.runs :: q in Resume(c, db, lockFree, pc, k).0.runs
  {
    hide MaxAttempt, RunningCount, RouteTo;
  }

  lemma ItemRevives(c: Config, s: State, t: nat, k: Choice, r: RunId)
    requires t in s.tasks && Handled(s.tasks[t].pc).None?
    ensures !RevivesRun(c, s, Act(t, k), r) && !BlocksCancelled(s, Act(t, k), r)
  {
    ItemShape(c, s, t, k);
    hide NextItem;
  }
}

/**
 The other half of `RunFate`: from every state in which a run is not settled, some continuation gives it
 another status; so `Settled` is exact.
 */
module RunOverturn {
  import opened Wrappers
  import opened PipelineRuns
  import opened RunMachine
  import opened RunSlots
  import opened RunInvariant
  import opened RunCancel
  import opened RunFate

  /** Without anybody cancelling the run, its status can come to differ from `st`. */
  ghost predicate Overturned(c: Config, s: State, r: RunId, st: RunStatus) {
    exists events :: CancelRun(r) !in events && Differs(Run(c, s, events), r, st)
  }

  predicate Differs(s: State, r: RunId, st: RunStatus) {
    r in s.db.runs && s.db.runs[r] != st
  }

  lemma Before(c: Config, s: State, e: Event, r: RunId, st: RunStatus)
    requires e != CancelRun(r) && Overturned(c, Next(c, s, e), r, st)
    ensures Overturned(c, s, r, st)
  {
    var events :| CancelRun(r) !in events && Differs(Run(c, Next(c, s, e), events), r, st);
    assert ([e] + events)[1..] == events;
    assert Run(c, s, [e] + events) == Run(c, Next(c, s, e), events);
    assert CancelRun(r) !in [e] + events;
  }

  lemma Already(c: Config, s: State, r: RunId, st: RunStatus)
    requires Differs(s, r, st)
    ensures Overturned(c, s, r, st)
  {
    assert Run(c, s, []) == s;
  }

  lemma BeforeAct(c: Config, s: State, t: nat, k: Choice, r: RunId, st: RunStatus)
    requires t in s.tasks && Handled(s.tasks[t].pc).Some?
    requires var (db', m) := Resume(c, s.db, s.lock.None?, s.tasks[t].pc, k); Overturned(c, Apply(s, t, db', m), r, st)
    ensures Overturned(c, s, r, st)
  {
    hide Resume, Apply, Overturned;
    Before(c, s, Act(t, k), r, st);
  }

  // ---------------------------------------------------------------- driving an activation to its end

  /** Answers of the environment that bring an activation to the end of its run, or of its launch, soonest. */
  function NextChoice(c: Config, db: Db, pc: Pc): Choice
    requires RowOf(pc).Some? ==> RowOf(pc).value < |db.rows|
  {
    match pc
    case Gate(_, _) => Prep(NoDriver)
    case Drive(_, i) => Ran(if db.rows[i].stage in c.stages then Said(Proceed) else Broken)
    case Complete(_, _, _, _) => Subject(true)
    case _ => Go
  }

  function Rank(pc: Pc): nat {
    match pc
    case RecoverRow(_, _) => 9
    case Drive(_, _) => 9
    case Check(_, _, _) => 8
    case RecoverRun(_, _) => 7
    case Complete(_, _, _, after) => if after.ThenRetry? then 7 else 3
    case ReadMax(_, _, _) => 6
    case Insert(_, _, _, _) => 5
    case Start(_, _) => 11
    case Gate(_, _) => 4
    case Exec(_, _) => 10
    case Finish(_, _) => 2
    case Hook(_) => 1
    case _ => 0
  }

  predicate InReach(db: Db, pc: Pc) {
    && Handled(pc).Some? && !InHandle(pc)
    && (RowOf(pc).Some? ==> RowOf(pc).value < |db.rows|)
  }

  ghost predicate Positive(rows: seq<StageRun>) {
    forall i | 0 <= i < |rows| :: 1 <= rows[i].attempt
  }

  predicate Stuck(c: Config, db: Db, pc: Pc)
    requires RowOf(pc).Some? ==> RowOf(pc).value < |db.rows|
  {
    pc.Complete? && pc.after.ThenRoute? && db.rows[pc.i].stage !in c.stages
  }

  /** What every step on the way keeps. */
  ghost predicate Onward(db: Db, pc: Pc, db': Db, m: Move) {
    && RowsKept(db.rows, db'.rows) && (Positive(db.rows) ==> Positive(db'.rows))
    && db'.runs.Keys == db.runs.Keys && !m.Stay?
    && (m.At? ==> InReach(db', m.pc) && Handled(m.pc) == Handled(pc) && Rank(m.pc) < Rank(pc))
  }

  lemma LaunchOnward(c: Config, db: Db, pc: Pc)
    requires InReach(db, pc) && InLaunch(pc)
    ensures var (db', m) := Launch(c, db, pc, NextChoice(c, db, pc));
            Onward(db, pc, db', m) && (m.At? && !pc.Check? ==> !Stuck(c, db', m.pc))
  {
    hide MaxAttempt;
  }

  lemma SettleOnward(c: Config, db: Db, pc: Pc)
    requires InReach(db, pc) && !InLaunch(pc) && !Stuck(c, db, pc)
    ensures var (db', m) := Settle(c, db, pc, NextChoice(c, db, pc));
            Onward(db, pc, db', m) && (m.At? ==> !Stuck(c, db', m.pc))
  {
    hide RouteTo;
  }

  lemma LaunchEnds(c: Config, db: Db, seeds: map<RunId, SeedPc>, pc: Pc, st: RunStatus)
    requires InReach(db, pc) && InLaunch(pc) && MayEnd(c, db, seeds, pc, st) && Positive(db.rows)
    requires st in {Running, Cancelled} && (pc.Check? ==> st == Cancelled)
    ensures var (db', m) := Launch(c, db, pc, NextChoice(c, db, pc));
            m.At? && InReach(db', m.pc) && MayEnd(c, db', seeds, m.pc, st)
  {
    hide MaxAttempt;
  }

  lemma SettleEnds(c: Config, db: Db, seeds: map<RunId, SeedPc>, pc: Pc, st: RunStatus)
    requires InReach(db, pc) && !InLaunch(pc) && !pc.Finish? && MayEnd(c, db, seeds, pc, st) && st in {Running, Cancelled}
    ensures var (db', m) := Settle(c, db, pc, NextChoice(c, db, pc));
            m.At? && InReach(db', m.pc) && MayEnd(c, db', seeds, m.pc, st)
    ensures !Stuck(c, db, pc)
  {
    hide RouteTo;
  }

  lemma StepEnds(c: Config, db: Db, seeds: map<RunId, SeedPc>, lockFree: bool, pc: Pc, st: RunStatus)
    requires InReach(db, pc) && !pc.Finish? && MayEnd(c, db, seeds, pc, st) && Positive(db.rows)
    requires st in {Running, Cancelled} && (pc.Check? ==> st == Cancelled)
    ensures var (db', m) := Resume(c, db, lockFree, pc, NextChoice(c, db, pc));
            Onward(db, pc, db', m) && m.At? && MayEnd(c, db', seeds, m.pc, st)
  {
    hide Launch, Settle, Handle, MayEnd, Onward;
    if InLaunch(pc) {
      LaunchOnward(c, db, pc);
      LaunchEnds(c, db, seeds, pc, st);
    } else {
      SettleEnds(c, db, seeds, pc, st);
      SettleOnward(c, db, pc);
    }
  }

  /** Cancelling the row of an activation at its check makes it finish the run as cancelled. */
  lemma CheckFinishes(c: Config, s: State, t: nat)
    requires t in s.tasks && s.tasks[t].pc.Check? && s.tasks[t].pc.i < |s.db.rows|
    ensures var s1 := Next(c, s, CancelRow(s.tasks[t].pc.i));
            && RowsKept(s.db.rows, s1.db.rows) && s1.db.runs == s.db.runs
            && s1.tasks == s.tasks && s1.stale == s.stale && s1.lock == s.lock && s1.seeds == s.seeds
            && Resume(c, s1.db, s1.lock.None?, s1.tasks[t].pc, Go) == (s1.db, At(Finish(s.tasks[t].pc.r, Cancelled)))
  {
    hide Handle, Settle;
  }

  lemma FinishEnds(c: Config, s: State, t: nat, r: RunId, st: RunStatus)
    requires t in s.tasks && s.tasks[t].pc.Finish? && s.tasks[t].pc.r == r && s.tasks[t].pc.final != st && r in s.db.runs
    ensures Overturned(c, s, r, st)
  {
    hide Overturned, Handle, Launch;
    var (db', m) := Resume(c, s.db, s.lock.None?, s.tasks[t].pc, Go);
    assert db'.runs[r] != st;
    Already(c, Apply(s, t, db', m), r, st);
    BeforeAct(c, s, t, Go, r, st);
  }

  /** An activation that may end its run can be brought to do so. */
  lemma {:induction false} ActivationEnds(c: Config, s: State, t: nat, r: RunId, st: RunStatus)
    requires t in s.tasks && InReach(s.db, s.tasks[t].pc) && s.tasks[t].pc.r == r && r in s.db.runs
    requires MayEnd(c, s.db, s.seeds, s.tasks[t].pc, st) && Positive(s.db.rows) && st in {Running, Cancelled}
    ensures Overturned(c, s, r, st)
    decreases Rank(s.tasks[t].pc)
  {
    var pc := s.tasks[t].pc;
    if pc.Finish? {
      FinishEnds(c, s, t, r, st);
    } else if pc.Check? && st != Cancelled {
      CheckEnds(c, s, t, r, st);
    } else {
      hide Overturned, Resume, MayEnd, Positive, InReach;
      StepEnds(c, s.db, s.seeds, s.lock.None?, pc, st);
      var (db', m) := Resume(c, s.db, s.lock.None?, pc, NextChoice(c, s.db, pc));
      var s' := Apply(s, t, db', m);
      ActivationEnds(c, s', t, r, st);
      BeforeAct(c, s, t, NextChoice(c, s.db, pc), r, st);
    }
  }

  lemma CheckEnds(c: Config, s: State, t: nat, r: RunId, st: RunStatus)
    requires t in s.tasks && s.tasks[t].pc.Check? && s.tasks[t].pc.i < |s.db.rows| && s.tasks[t].pc.r == r
    requires r in s.db.runs && st != Cancelled
    ensures Overturned(c, s, r, st)
  {
    CheckFinishes(c, s, t);
    var i := s.tasks[t].pc.i;
    var s1 := Next(c, s, CancelRow(i));
    hide Overturned, Resume, Next;
    FinishEnds(c, Apply(s1, t, s1.db, At(Finish(r, Cancelled))), t, r, st);
    BeforeAct(c, s1, t, Go, r, st);
    Before(c, s, CancelRow(i), r, st);
  }

  // ---------------------------------------------------------------- the choice of the first stage

  /** The activation takes up the seed row, or the first stage when there is no fitting seed row. */
  lemma TakesSeed(c: Config, s: State, t: nat, r: RunId, st: RunStatus)
    requires t in s.tasks && s.tasks[t].pc == GetStageRuns(r) && r in s.db.runs && Positive(s.db.rows) && st in {Running, Cancelled}
    requires var f := FirstPending(s.db.rows, r);
             if f.Some? && s.db.rows[f.value].stage in c.pipeline(r) then !Held(c, s.db.rows[f.value].stage)
             else c.pipeline(r) != [] && !Held(c, c.pipeline(r)[0])
    ensures Overturned(c, s, r, st)
  {
    hide Overturned, Launch, Settle, FirstPending;
    var (db', m) := Resume(c, s.db, s.lock.None?, GetStageRuns(r), Go);
    assert db' == s.db && m.At? && MayEnd(c, s.db, s.seeds, m.pc, st) && InReach(s.db, m.pc) && m.pc.r == r;
    hide Resume, MayEnd;
    ActivationEnds(c, Apply(s, t, db', m), t, r, st);
    BeforeAct(c, s, t, Go, r, st);
  }

  /** Cancelling the first pending row leaves the rest as it was. */
  lemma CancelFirst(c: Config, s: State, r: RunId)
    requires FirstPending(s.db.rows, r).Some?
    ensures var i := FirstPending(s.db.rows, r).value;
            var s1 := Next(c, s, CancelRow(i));
            && s1 == s.(db := s1.db, cancelUsed := true) && s1.db.runs == s.db.runs && |s1.db.rows| == |s.db.rows|
            && (forall j | 0 <= j < |s.db.rows| && j != i :: s1.db.rows[j] == s.db.rows[j])
            && (Positive(s.db.rows) ==> Positive(s1.db.rows))
            && var f := FirstPending(s1.db.rows, r); f.None? || f.value > i
  {
    var i := FirstPending(s.db.rows, r).value;
    var s1 := Next(c, s, CancelRow(i));
    FirstPendingExact(s.db.rows, r);
    FirstPendingExact(s1.db.rows, r);
    hide FirstPending;
    assert forall j | 0 <= j < i && s1.db.rows[j].run == r :: s1.db.rows[j].status != RowPending;
  }

  lemma {:induction false} StartEnds(c: Config, s: State, t: nat, r: RunId, st: RunStatus)
    requires t in s.tasks && s.tasks[t].pc == GetStageRuns(r) && r in s.db.runs && Positive(s.db.rows) && st in {Running, Cancelled}
    requires StartOpens(c, s.db, s.seeds, r)
    ensures Overturned(c, s, r, st)
    decreases if FirstPending(s.db.rows, r).Some? then |s.db.rows| - FirstPending(s.db.rows, r).value else 0
  {
    hide Overturned, FirstPending, Next;
    var f := FirstPending(s.db.rows, r);
    FirstPendingExact(s.db.rows, r);
    if f.Some? && Opens(c, r, s.db.rows[f.value].stage) {
      TakesSeed(c, s, t, r, st);
    } else if f.Some? && s.db.rows[f.value].stage !in c.pipeline(r) && !Held(c, c.pipeline(r)[0]) {
      TakesSeed(c, s, t, r, st);
    } else if f.Some? {
      CancelFirst(c, s, r);
      var s1 := Next(c, s, CancelRow(f.value));
      StillOpens(c, s, s1, r, f.value);
      StartEnds(c, s1, t, r, st);
      Before(c, s, CancelRow(f.value), r, st);
    } else if !Held(c, c.pipeline(r)[0]) {
      TakesSeed(c, s, t, r, st);
    } else {
      SeedEnds(c, s, t, r, st);
    }
  }

  lemma StillOpens(c: Config, s: State, s1: State, r: RunId, i: nat)
    requires StartOpens(c, s.db, s.seeds, r) && i < |s.db.rows| && !Opens(c, r, s.db.rows[i].stage)
    requires |s1.db.rows| == |s.db.rows| && s1.seeds == s.seeds && forall j | 0 <= j < |s.db.rows| && j != i :: s1.db.rows[j] == s.db.rows[j]
    ensures StartOpens(c, s1.db, s1.seeds, r)
  {
    if j :| 0 <= j < |s.db.rows| && s.db.rows[j].run == r && s.db.rows[j].status == RowPending && Opens(c, r, s.db.rows[j].stage) {
      assert s1.db.rows[j] == s.db.rows[j];
    }
  }

  /** The trigger call that created the run inserts its seed row, and that row is taken up. */
  lemma SeedEnds(c: Config, s: State, t: nat, r: RunId, st: RunStatus)
    requires t in s.tasks && s.tasks[t].pc == GetStageRuns(r) && r in s.db.runs && Positive(s.db.rows) && st in {Running, Cancelled}
    requires FirstPending(s.db.rows, r).None? && r in s.seeds && Opens(c, r, s.seeds[r].s)
    ensures Overturned(c, s, r, st)
  {
    hide Overturned, FirstPending;
    if s.seeds[r].SeedRead? {
      var s1 := Next(c, s, TriggerRead(r));
      assert s1.tasks == s.tasks && s1.db == s.db && s1.seeds[r] == SeedInsert(s.seeds[r].s, MaxAttempt(s.db.rows, r, s.seeds[r].s));
      hide Next;
      SeedInsertEnds(c, s1, t, r, st);
      Before(c, s, TriggerRead(r), r, st);
    } else {
      SeedInsertEnds(c, s, t, r, st);
    }
  }

  lemma SeedInsertEnds(c: Config, s: State, t: nat, r: RunId, st: RunStatus)
    requires t in s.tasks && s.tasks[t].pc == GetStageRuns(r) && r in s.db.runs && Positive(s.db.rows) && st in {Running, Cancelled}
    requires FirstPending(s.db.rows, r).None? && r in s.seeds && s.seeds[r].SeedInsert? && Opens(c, r, s.seeds[r].s)
    ensures Overturned(c, s, r, st)
  {
    var s1 := Next(c, s, TriggerInsert(r));
    var rows := s1.db.rows;
    assert rows[..|rows| - 1] == s.db.rows;
    assert FirstPending(rows, r) == Some(|rows| - 1);
    assert s1.tasks == s.tasks && s1.db.runs == s.db.runs && Positive(rows) && rows[|rows| - 1].stage == s.seeds[r].s;
    hide Overturned, FirstPending, Next;
    TakesSeed(c, s1, t, r, st);
    Before(c, s, TriggerInsert(r), r, st);
  }

  lemma EmptyEnds(c: Config, s: State, t: nat, r: RunId, st: RunStatus)
    requires t in s.tasks && s.tasks[t].pc == FailEmpty(r) && r in s.db.runs && st in {Running, Cancelled}
    ensures Overturned(c, s, r, st)
  {
    hide Overturned, Launch, Settle;
    var (db', m) := Resume(c, s.db, s.lock.None?, FailEmpty(r), Go);
    Already(c, Apply(s, t, db', m), r, st);
    BeforeAct(c, s, t, Go, r, st);
  }

  lemma StagesEnds(c: Config, s: State, t: nat, r: RunId, st: RunStatus)
    requires t in s.tasks && s.tasks[t].pc == GetStages(r) && r in s.db.runs && c.pipeline(r) == [] && st in {Running, Cancelled}
    ensures Overturned(c, s, r, st)
  {
    hide Overturned, Launch, Settle;
    var (db', m) := Resume(c, s.db, s.lock.None?, GetStages(r), Go);
    EmptyEnds(c, Apply(s, t, db', m), t, r, st);
    BeforeAct(c, s, t, Go, r, st);
  }

  // ---------------------------------------------------------------- recovery

  /** A recovery loop between two rows takes up the given one. */
  lemma VisitEnds(c: Config, s: State, t: nat, i: nat, r: RunId, st: RunStatus)
    requires t in s.tasks && s.tasks[t] == Task(ByRecovery, Idle) && i in s.stale && i < |s.db.rows|
    requires s.db.rows[i].run == r && RecoveryEnds(c, s.db.rows[i]) && r in s.db.runs && Positive(s.db.rows) && st in {Running, Cancelled}
    ensures Overturned(c, s, r, st)
  {
    var s' := NextItem(c, s, t, Visit(i, false));
    assert s'.tasks[t].pc == RecoverRow(r, i) && s'.db == s.db && s'.seeds == s.seeds;
    assert Next(c, s, Act(t, Visit(i, false))) == s';
    assert MayEnd(c, s'.db, s'.seeds, s'.tasks[t].pc, st);
    hide Overturned, Next, NextItem, MayEnd;
    ActivationEnds(c, s', t, r, st);
    Before(c, s, Act(t, Visit(i, false)), r, st);
  }

  /** A crash and a restart put every running row before the recovery loop. */
  lemma RunningEnds(c: Config, s: State, i: nat, r: RunId, st: RunStatus)
    requires i < |s.db.rows| && s.db.rows[i].run == r && s.db.rows[i].status == RowRunning && RecoveryEnds(c, s.db.rows[i])
    requires r in s.db.runs && Positive(s.db.rows) && st in {Running, Cancelled}
    ensures Overturned(c, s, r, st)
  {
    var s1 := Next(c, s, Crash);
    var s2 := Next(c, s1, Boot(0));
    assert s2.db == s.db && s2.tasks == map[0 := Task(ByRecovery, Idle)] && i in s2.stale;
    hide Overturned, Next;
    VisitEnds(c, s2, 0, i, r, st);
    Before(c, s1, Boot(0), r, st);
    Before(c, s, Crash, r, st);
  }

  lemma ResumeOnward(c: Config, db: Db, lockFree: bool, pc: Pc)
    requires InReach(db, pc) && !pc.Check? && !Stuck(c, db, pc)
    ensures var (db', m) := Resume(c, db, lockFree, pc, NextChoice(c, db, pc)); Onward(db, pc, db', m)
    ensures var (db', m) := Resume(c, db, lockFree, pc, NextChoice(c, db, pc)); m.At? && InReach(db', m.pc) ==> !Stuck(c, db', m.pc)
  {
    hide Launch, Settle, Handle, Onward;
    if InLaunch(pc) {
      LaunchOnward(c, db, pc);
    } else {
      SettleOnward(c, db, pc);
    }
  }

  /** A recovery loop at work on another row can be brought back to the loop, and then takes up the given one. */
  lemma {:induction false} LoopEnds(c: Config, s: State, t: nat, i: nat, r: RunId, st: RunStatus)
    requires t in s.tasks && s.tasks[t].driver.ByRecovery? && i in s.stale && i < |s.db.rows|
    requires s.tasks[t].pc.Idle? || (InReach(s.db, s.tasks[t].pc) && !Stuck(c, s.db, s.tasks[t].pc))
    requires s.db.rows[i].run == r && RecoveryEnds(c, s.db.rows[i]) && r in s.db.runs && Positive(s.db.rows) && st in {Running, Cancelled}
    ensures Overturned(c, s, r, st)
    decreases Rank(s.tasks[t].pc)
  {
    var pc := s.tasks[t].pc;
    if pc.Idle? {
      VisitEnds(c, s, t, i, r, st);
    } else if pc.Check? {
      CheckFinishes(c, s, t);
      var s1 := Next(c, s, CancelRow(pc.i));
      var s2 := Apply(s1, t, s1.db, At(Finish(pc.r, Cancelled)));
      PositiveKept(c, s, pc.i);
      hide Overturned, Resume, Next, FailureEnds;
      LoopEnds(c, s2, t, i, r, st);
      BeforeAct(c, s1, t, Go, r, st);
      Before(c, s, CancelRow(pc.i), r, st);
    } else {
      hide Overturned, Resume, Positive, FailureEnds, NextChoice;
      ResumeOnward(c, s.db, s.lock.None?, pc);
      var (db', m) := Resume(c, s.db, s.lock.None?, pc, NextChoice(c, s.db, pc));
      var s' := Apply(s, t, db', m);
      assert RecoveryEnds(c, db'.rows[i]) by { SameEnds(c, s.db.rows[i], db'.rows[i]); }
      LoopEnds(c, s', t, i, r, st);
      BeforeAct(c, s, t, NextChoice(c, s.db, pc), r, st);
    }
  }

  lemma PositiveKept(c: Config, s: State, i: nat)
    requires Positive(s.db.rows)
    ensures Positive(Next(c, s, CancelRow(i)).db.rows)
  {
  }

  lemma SameEnds(c: Config, a: StageRun, b: StageRun)
    requires a.stage == b.stage && a.attempt == b.attempt
    ensures RecoveryEnds(c, a) == RecoveryEnds(c, b)
  {
  }

  // ---------------------------------------------------------------- exactness

  lemma TaskEnds(c: Config, s: State, t: nat, r: RunId, st: RunStatus)
    requires RunInv(c, s) && t in s.tasks && Handled(s.tasks[t].pc) == Some(r) && r in s.db.runs && st in {Running, Cancelled}
    requires Positive(s.db.rows) && (RowOf(s.tasks[t].pc).Some? ==> RowOf(s.tasks[t].pc).value < |s.db.rows|)
    requires MayEnd(c, s.db, s.seeds, s.tasks[t].pc, st)
    ensures Overturned(c, s, r, st)
  {
    var pc := s.tasks[t].pc;
    hide RunInv, Overturned, StartOpens;
    if pc.GetStages? {
      StagesEnds(c, s, t, r, st);
    } else if pc.FailEmpty? {
      EmptyEnds(c, s, t, r, st);
    } else if pc.GetStageRuns? {
      StartEnds(c, s, t, r, st);
    } else {
      ActivationEnds(c, s, t, r, st);
    }
  }

  lemma RecoveringEnds(c: Config, s: State, t: nat, i: nat, r: RunId, st: RunStatus)
    requires RunInv(c, s) && t in s.tasks && Recovering(c, s.db, s.tasks[t]) && i in s.stale && i < |s.db.rows|
    requires s.db.rows[i].run == r && RecoveryEnds(c, s.db.rows[i]) && r in s.db.runs && Positive(s.db.rows) && st in {Running, Cancelled}
    ensures Overturned(c, s, r, st)
  {
    assert TaskOk(c, s.db, s.inFlight, s.tasks[t]);
    hide RunInv, Overturned, FailureEnds;
    LoopEnds(c, s, t, i, r, st);
  }

  lemma UnsettledEnds(c: Config, s: State, r: RunId, st: RunStatus)
    requires RunInv(c, s) && r in s.db.runs && s.db.runs[r] == st && st in {Running, Cancelled} && !Settled(c, s, r, st)
    ensures Overturned(c, s, r, st)
  {
    InOrder(c, s);
    hide RunInv, Overturned, MayEnd, RecoveryEnds, Recovering, Positive;
    if t :| t in s.tasks && Handled(s.tasks[t].pc) == Some(r) && RowsAt(s, t) && MayEnd(c, s.db, s.seeds, s.tasks[t].pc, st) {
      TaskEnds(c, s, t, r, st);
    } else if !NoRunningEnds(c, s.db, r) {
      var i :| 0 <= i < |s.db.rows| && s.db.rows[i].run == r && s.db.rows[i].status == RowRunning && RecoveryEnds(c, s.db.rows[i]);
      RunningEnds(c, s, i, r, st);
    } else {
      var t :| t in s.tasks && Recovering(c, s.db, s.tasks[t]);
      var i :| i in s.stale && i < |s.db.rows| && s.db.rows[i].run == r && RecoveryEnds(c, s.db.rows[i]);
      RecoveringEnds(c, s, t, i, r, st);
    }
  }

  predicate RowsAt(s: State, t: nat)
    requires t in s.tasks
  {
    RowOf(s.tasks[t].pc).Some? ==>
      RowOf(s.tasks[t].pc).value < |s.db.rows| && Handled(s.tasks[t].pc) == Some(s.db.rows[RowOf(s.tasks[t].pc).value].run)
  }

  lemma InOrder(c: Config, s: State)
    requires RunInv(c, s)
    ensures Positive(s.db.rows) && forall t | t in s.tasks :: RowsAt(s, t)
  {
    forall i | 0 <= i < |s.db.rows|
      ensures 1 <= s.db.rows[i].attempt
    {
      assert RowOk(c, s.db, s.db.rows[i]);
    }
    forall t | t in s.tasks
      ensures RowsAt(s, t)
    {
      assert TaskOk(c, s.db, s.inFlight, s.tasks[t]);
    }
  }

  ghost predicate Stays(c: Config, s: State, events: seq<Event>, r: RunId, st: RunStatus) {
    var s' := Run(c, s, events); r in s'.db.runs && s'.db.runs[r] == st
  }

  /** A running or cancelled run keeps its status under every continuation, but for somebody cancelling it, if
      and only if it is settled. */
  lemma StaysIff(c: Config, s: State, r: RunId, st: RunStatus)
    requires RunInv(c, s) && r in s.db.runs && s.db.runs[r] == st && st in {Running, Cancelled}
    ensures Settled(c, s, r, st) <==> forall events | Allowed(events, r, st) :: Stays(c, s, events, r, st)
  {
    if Settled(c, s, r, st) {
      forall events | Allowed(events, r, st)
        ensures Stays(c, s, events, r, st)
      {
        hide RunInv, Settled;
        SettledAlways(c, s, events, r, st);
        SettledStatus(c, Run(c, s, events), r, st);
      }
    } else {
      UnsettledEnds(c, s, r, st);
      var events :| CancelRun(r) !in events && Differs(Run(c, s, events), r, st);
      assert Allowed(events, r, st) && !Stays(c, s, events, r, st);
    }
  }

  lemma SettledStatus(c: Config, s: State, r: RunId, st: RunStatus)
    requires Settled(c, s, r, st)
    ensures r in s.db.runs && s.db.runs[r] == st
  {
  }
}

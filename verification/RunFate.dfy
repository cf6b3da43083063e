/**
 Exactly when the status of a run is settled for good, whatever happens later: when a cancellation lasts, and
 which running runs a crash strands.
 */
module RunFate {
  import opened Wrappers
  import opened PipelineRuns
  import opened RunMachine
  import opened RunSlots
  import opened RunInvariant
  import opened RunCancel
  import opened RunTraces

  // ---------------------------------------------------------------- what can still end the run

  /** A launch of the stage stops at its gate. */
  predicate Held(c: Config, s: StageId) {
    s in c.stages && c.stages[s].held
  }

  /** A seed row at this stage is taken up, and its launch passes the gate. */
  predicate Opens(c: Config, r: RunId, s: StageId) {
    s in c.pipeline(r) && !Held(c, s)
  }

  /** Failing the row fails the run, or relaunches a stage that does not stop at its gate. */
  predicate FailureEnds(c: Config, row: StageRun) {
    !MayRetry(c, row.stage, row.attempt) || !Held(c, row.stage)
  }

  /** Some choice of first stage that a claimed run may yet make passes its gate. */
  predicate StartOpens(c: Config, db: Db, seeds: map<RunId, SeedPc>, r: RunId) {
    && c.pipeline(r) != []
    && (|| !Held(c, c.pipeline(r)[0])
        || (exists j | 0 <= j < |db.rows| :: db.rows[j].run == r && db.rows[j].status == RowPending && Opens(c, r, db.rows[j].stage))
        || (r in seeds && Opens(c, r, seeds[r].s)))
  }

  /** An activation handling a run of status `st` can still give it another one. */
  predicate MayEnd(c: Config, db: Db, seeds: map<RunId, SeedPc>, pc: Pc, st: RunStatus)
    requires RowOf(pc).Some? ==> RowOf(pc).value < |db.rows|
  {
    match pc
    case GetStages(r) => c.pipeline(r) == []
    case FailEmpty(_) => true
    case GetStageRuns(r) => StartOpens(c, db, seeds, r)
    case ReadMax(_, s, _) => !Held(c, s)
    case Insert(_, s, _, _) => !Held(c, s)
    case Gate(_, i) => !Held(c, db.rows[i].stage)
    case Start(_, _) => true
    case Exec(_, i) => !c.hasRunner || st != Cancelled || db.rows[i].status != RowCancelled
    case Drive(_, i) => st != Cancelled || db.rows[i].status != RowCancelled
    case Check(_, i, o) =>
      st != Cancelled
      || (db.rows[i].status != RowCancelled && if o.Said? then db.rows[i].stage in c.stages else FailureEnds(c, db.rows[i]))
    case Complete(_, i, _, ThenRetry) => FailureEnds(c, db.rows[i])
    case Complete(_, i, _, ThenRoute(_)) => db.rows[i].stage in c.stages
    case Complete(_, _, _, ThenFinish(final)) => final != st
    case Finish(_, final) => final != st
    case RecoverRow(_, i) => FailureEnds(c, db.rows[i])
    case RecoverRun(_, i) => FailureEnds(c, db.rows[i])
    case _ => false
  }

  /** The recovery loop is still going, and not stuck with a row whose stage is gone. */
  predicate Recovering(c: Config, db: Db, task: Task) {
    && task.driver.ByRecovery? && !task.pc.Over? && !task.pc.ListPending?
    && (task.pc.Complete? && task.pc.after.ThenRoute? && task.pc.i < |db.rows| ==> db.rows[task.pc.i].stage in c.stages)
  }

  /** Recovering the row can end its run. */
  predicate RecoveryEnds(c: Config, row: StageRun) {
    row.stage in c.stages && FailureEnds(c, row)
  }

  /** Nothing now under way can change the status of the run: no activation handling it can end it, and no
      row of it that recovery would close, now or after a crash, leads to an end. */
  ghost predicate Settled(c: Config, s: State, r: RunId, st: RunStatus) {
    && r in s.db.runs && s.db.runs[r] == st
    && (forall t :: t in s.tasks && Handled(s.tasks[t].pc) == Some(r) ==>
          (RowOf(s.tasks[t].pc).Some? ==> RowOf(s.tasks[t].pc).value < |s.db.rows| && s.db.rows[RowOf(s.tasks[t].pc).value].run == r)
          && !MayEnd(c, s.db, s.seeds, s.tasks[t].pc, st))
    && NoRunningEnds(c, s.db, r)
    && ((exists t :: t in s.tasks && Recovering(c, s.db, s.tasks[t])) ==> NoStaleEnds(c, s.db, s.stale, r))
  }

  ghost predicate NoRunningEnds(c: Config, db: Db, r: RunId) {
    forall i | 0 <= i < |db.rows| && db.rows[i].run == r && db.rows[i].status == RowRunning :: !RecoveryEnds(c, db.rows[i])
  }

  ghost predicate NoStaleEnds(c: Config, db: Db, stale: set<nat>, r: RunId) {
    forall i | i in stale && i < |db.rows| && db.rows[i].run == r :: !RecoveryEnds(c, db.rows[i])
  }

  // ---------------------------------------------------------------- steps that leave the run alone

  /** The rows of the run stay, a cancelled one stays cancelled, none starts running or waits anew, and a row
      that is appended is the one its trigger call was about to insert. */
  ghost predicate Calmer(db: Db, seeds: map<RunId, SeedPc>, db': Db, seeds': map<RunId, SeedPc>, r: RunId) {
    && |db.rows| <= |db'.rows|
    && (forall i | 0 <= i < |db.rows| ::
          && db'.rows[i].run == db.rows[i].run && db'.rows[i].stage == db.rows[i].stage && db'.rows[i].attempt == db.rows[i].attempt
          && (db.rows[i].run == r && db'.rows[i].status != db.rows[i].status ==>
                db.rows[i].status != RowCancelled && db'.rows[i].status != RowPending && db'.rows[i].status != RowRunning))
    && (forall i | |db.rows| <= i < |db'.rows| && db'.rows[i].run == r ::
          db'.rows[i].status == RowPending && r in seeds && db'.rows[i].stage == seeds[r].s)
    && (r in seeds' ==> r in seeds && seeds'[r].s == seeds[r].s)
  }

  lemma CalmerEnd(c: Config, db: Db, seeds: map<RunId, SeedPc>, db': Db, seeds': map<RunId, SeedPc>, r: RunId, pc: Pc, st: RunStatus)
    requires Calmer(db, seeds, db', seeds', r) && Handled(pc) == Some(r)
    requires RowOf(pc).Some? ==> RowOf(pc).value < |db.rows| && db.rows[RowOf(pc).value].run == r
    ensures MayEnd(c, db', seeds', pc, st) ==> MayEnd(c, db, seeds, pc, st)
  {
    if pc.GetStageRuns? && StartOpens(c, db', seeds', r) {
      CalmerStart(c, db, seeds, db', seeds', r);
    }
  }

  lemma CalmerStart(c: Config, db: Db, seeds: map<RunId, SeedPc>, db': Db, seeds': map<RunId, SeedPc>, r: RunId)
    requires Calmer(db, seeds, db', seeds', r) && StartOpens(c, db', seeds', r)
    ensures StartOpens(c, db, seeds, r)
  {
    if j :| 0 <= j < |db'.rows| && db'.rows[j].run == r && db'.rows[j].status == RowPending && Opens(c, r, db'.rows[j].stage) {
      if j < |db.rows| {
        assert db.rows[j].run == r && db.rows[j].status == RowPending && Opens(c, r, db.rows[j].stage);
      }
    }
  }

  lemma CalmerRows(c: Config, db: Db, seeds: map<RunId, SeedPc>, db': Db, seeds': map<RunId, SeedPc>, r: RunId, stale: set<nat>)
    requires Calmer(db, seeds, db', seeds', r)
    ensures NoRunningEnds(c, db, r) ==> NoRunningEnds(c, db', r)
    ensures NoStaleEnds(c, db, stale, r) && (forall i | i in stale :: i < |db.rows|) ==> NoStaleEnds(c, db', stale, r)
  {
  }

  /** A step that is calm for the run, starts no activation on it and makes no row stale keeps it settled. */
  lemma CalmSettled(c: Config, s: State, s': State, r: RunId, st: RunStatus)
    requires Settled(c, s, r, st) && Calmer(s.db, s.seeds, s'.db, s'.seeds, r)
    requires r in s'.db.runs && s'.db.runs[r] == st
    requires forall t | t in s'.tasks && Handled(s'.tasks[t].pc) == Some(r) ::
               (t in s.tasks && s'.tasks[t].pc == s.tasks[t].pc) || s'.tasks[t].pc.GetRun?
    requires s'.stale <= s.stale && forall i | i in s.stale :: i < |s.db.rows|
    requires forall t | t in s'.tasks && Recovering(c, s'.db, s'.tasks[t]) :: t in s.tasks && Recovering(c, s.db, s.tasks[t])
    ensures Settled(c, s', r, st)
  {
    CalmerRows(c, s.db, s.seeds, s'.db, s'.seeds, r, s.stale);
    forall t | t in s'.tasks && Handled(s'.tasks[t].pc) == Some(r) && !s'.tasks[t].pc.GetRun?
      ensures !MayEnd(c, s.db, s.seeds, s'.tasks[t].pc, st)
    {
      assert t in s.tasks && s'.tasks[t].pc == s.tasks[t].pc;
    }
    forall t | t in s'.tasks && Handled(s'.tasks[t].pc) == Some(r)
      ensures RowOf(s'.tasks[t].pc).Some? ==> RowOf(s'.tasks[t].pc).value < |s'.db.rows| && s'.db.rows[RowOf(s'.tasks[t].pc).value].run == r
      ensures !MayEnd(c, s'.db, s'.seeds, s'.tasks[t].pc, st)
    {
      if !s'.tasks[t].pc.GetRun? {
        CalmerEnd(c, s.db, s.seeds, s'.db, s'.seeds, r, s'.tasks[t].pc, st);
      }
    }
    hide MayEnd, Recovering, Calmer, NoRunningEnds;
  }

  // ---------------------------------------------------------------- the run's own activations

  /** A step of an activation that handles the run. */
  ghost predicate OwnStep(c: Config, db: Db, seeds: map<RunId, SeedPc>, r: RunId, st: RunStatus, db': Db, m: Move) {
    && r in db'.runs && db'.runs[r] == st
    && |db.rows| <= |db'.rows|
    && (forall i | 0 <= i < |db'.rows| && db'.rows[i].run == r && db'.rows[i].status == RowRunning ::
          i < |db.rows| && db.rows[i].run == r && db.rows[i].status == RowRunning)
    && (m.At? && Handled(m.pc) == Some(r) ==>
          (RowOf(m.pc).Some? ==> RowOf(m.pc).value < |db'.rows| && db'.rows[RowOf(m.pc).value].run == r)
          && !MayEnd(c, db', seeds, m.pc, st))
  }

  lemma HandleOwn(c: Config, db: Db, seeds: map<RunId, SeedPc>, lockFree: bool, pc: Pc, st: RunStatus)
    requires InHandle(pc) && PcOk(c, db, pc) && !MayEnd(c, db, seeds, pc, st) && !pc.Commit?
    requires pc.r in db.runs && db.runs[pc.r] == st && st != Pending
    ensures var (db', m) := Handle(c, db, lockFree, pc); OwnStep(c, db, seeds, pc.r, st, db', m)
  {
    hide RunningCount;
  }

  lemma LaunchOwn(c: Config, db: Db, seeds: map<RunId, SeedPc>, pc: Pc, k: Choice, st: RunStatus)
    requires InLaunch(pc) && PcOk(c, db, pc) && !MayEnd(c, db, seeds, pc, st)
    requires pc.r in db.runs && db.runs[pc.r] == st
    ensures var (db', m) := Launch(c, db, pc, k); OwnStep(c, db, seeds, pc.r, st, db', m)
  {
    hide MaxAttempt, RetryBelow, CauseOk;
  }

  lemma SettleOwn(c: Config, db: Db, seeds: map<RunId, SeedPc>, pc: Pc, k: Choice, st: RunStatus)
    requires Handled(pc).Some? && !InHandle(pc) && !InLaunch(pc) && PcOk(c, db, pc) && !MayEnd(c, db, seeds, pc, st)
    requires pc.r in db.runs && db.runs[pc.r] == st
    ensures var (db', m) := Settle(c, db, pc, k); OwnStep(c, db, seeds, pc.r, st, db', m)
  {
    hide RetryBelow, CauseOk, RouteTo;
  }

  lemma ResumeOwn(c: Config, db: Db, seeds: map<RunId, SeedPc>, lockFree: bool, pc: Pc, k: Choice, st: RunStatus)
    requires Handled(pc).Some? && PcOk(c, db, pc) && !MayEnd(c, db, seeds, pc, st) && !pc.Commit?
    requires pc.r in db.runs && db.runs[pc.r] == st && st != Pending
    ensures var (db', m) := Resume(c, db, lockFree, pc, k); OwnStep(c, db, seeds, pc.r, st, db', m)
  {
    hide Handle, Launch, Settle, OwnStep;
    if InHandle(pc) {
      HandleOwn(c, db, seeds, lockFree, pc, st);
    } else if InLaunch(pc) {
      LaunchOwn(c, db, seeds, pc, k, st);
    } else {
      SettleOwn(c, db, seeds, pc, k, st);
    }
  }

  /** Old rows keep what recovery looks at. */
  predicate RowsKept(a: seq<StageRun>, b: seq<StageRun>) {
    |a| <= |b| && forall i | 0 <= i < |a| :: b[i].run == a[i].run && b[i].stage == a[i].stage && b[i].attempt == a[i].attempt
  }

  lemma StuckStays(c: Config, db: Db, lockFree: bool, task: Task, k: Choice)
    requires Handled(task.pc).Some? && task.driver.ByRecovery? && !Recovering(c, db, task)
    ensures Resume(c, db, lockFree, task.pc, k) == (db, Stay)
  {
    hide Handle, Launch;
  }

  /** No step sets a stuck recovery loop going again. */
  lemma ActRecovering(c: Config, s: State, t: nat, db': Db, m: Move)
    requires t in s.tasks && Handled(s.tasks[t].pc).Some? && RowsKept(s.db.rows, db'.rows)
    requires forall q | q in s.tasks && RowOf(s.tasks[q].pc).Some? :: RowOf(s.tasks[q].pc).value < |s.db.rows|
    requires s.tasks[t].driver.ByRecovery? && !Recovering(c, s.db, s.tasks[t]) ==> (db', m) == (s.db, Stay)
    ensures var s' := Apply(s, t, db', m);
            forall q | q in s'.tasks && Recovering(c, s'.db, s'.tasks[q]) :: q in s.tasks && Recovering(c, s.db, s.tasks[q])
  {
  }

  lemma AtEachTask(c: Config, s: State)
    requires RunInv(c, s)
    ensures forall q | q in s.tasks && RowOf(s.tasks[q].pc).Some? :: RowOf(s.tasks[q].pc).value < |s.db.rows|
    ensures forall i | i in s.stale :: i < |s.db.rows|
  {
    forall q | q in s.tasks
      ensures RowOf(s.tasks[q].pc).Some? ==> RowOf(s.tasks[q].pc).value < |s.db.rows|
    {
      assert TaskOk(c, s.db, s.inFlight, s.tasks[q]);
    }
    forall i | i in s.stale
      ensures i < |s.db.rows|
    {
      assert StaleOk(c, s.db, s.stale, i);
    }
  }

  /** What others handling the same run rely on does not depend on its rows. */
  lemma OwnApply(c: Config, s: State, t: nat, db': Db, m: Move, r: RunId, st: RunStatus)
    requires Settled(c, s, r, st) && t in s.tasks && Handled(s.tasks[t].pc) == Some(r)
    requires OwnStep(c, s.db, s.seeds, r, st, db', m) && RowsKept(s.db.rows, db'.rows)
    requires m.Stay? ==> db' == s.db
    requires m.At? ==> Handled(m.pc) == Some(r)
    requires forall q | q in s.tasks && q != t && Handled(s.tasks[q].pc) == Some(r) :: db' == s.db || Owned(s.tasks[q].pc).None?
    requires forall i | i in s.stale :: i < |s.db.rows|
    requires var s' := Apply(s, t, db', m);
             forall q | q in s'.tasks && Recovering(c, s'.db, s'.tasks[q]) :: q in s.tasks && Recovering(c, s.db, s.tasks[q])
    ensures Settled(c, Apply(s, t, db', m), r, st)
  {
    var s' := Apply(s, t, db', m);
    forall q | q in s'.tasks && Handled(s'.tasks[q].pc) == Some(r)
      ensures RowOf(s'.tasks[q].pc).Some? ==> RowOf(s'.tasks[q].pc).value < |db'.rows| && db'.rows[RowOf(s'.tasks[q].pc).value].run == r
      ensures !MayEnd(c, db', s.seeds, s'.tasks[q].pc, st)
    {
      if q != t && db' != s.db {
        OthersIgnore(c, s.db, db', s.seeds, s.tasks[q].pc, st);
      }
    }
    hide MayEnd, Recovering, FailureEnds;
  }

  lemma OthersIgnore(c: Config, db: Db, db': Db, seeds: map<RunId, SeedPc>, pc: Pc, st: RunStatus)
    requires Owned(pc).None? && Handled(pc).Some?
    ensures RowOf(pc).None? && MayEnd(c, db, seeds, pc, st) == MayEnd(c, db', seeds, pc, st)
  {
  }

  lemma ElsewhereCalm(db: Db, db': Db, seeds: map<RunId, SeedPc>, mine: RunId, r: RunId)
    requires ElsewhereOnly(db, db', mine) && mine != r && RowsKept(db.rows, db'.rows)
    ensures Calmer(db, seeds, db', seeds, r)
  {
  }

  lemma ResumeRowsKept(c: Config, db: Db, lockFree: bool, pc: Pc, k: Choice)
    requires Handled(pc).Some? && PcOk(c, db, pc) && DataOk(c, db) && OnlyOwnRow(db, pc) && (pc.Commit? ==> IsPending(db, pc.r))
    ensures var (db', m) := Resume(c, db, lockFree, pc, k);
            && RowsKept(db.rows, db'.rows)
            && (m.At? && Handled(m.pc).Some? ==> m.pc.r == pc.r)
            && (m.Stay? ==> db' == db)
            && (db' == db || Owned(pc).Some? || pc.Commit? || pc.FailEmpty?)
  {
    ResumeGood(c, db, lockFree, pc, k);
    hide Resume, PcOk, DataOk, OnlyOwnRow;
  }

  lemma ActSettled(c: Config, s: State, t: nat, k: Choice, r: RunId, st: RunStatus)
    requires RunInv(c, s) && Settled(c, s, r, st) && st != Pending && t in s.tasks && Handled(s.tasks[t].pc).Some?
    ensures var (db', m) := Resume(c, s.db, s.lock.None?, s.tasks[t].pc, k); Settled(c, Apply(s, t, db', m), r, st)
  {
    var pc := s.tasks[t].pc;
    var (db', m) := Resume(c, s.db, s.lock.None?, pc, k);
    AtEachTask(c, s);
    ActFacts(c, s, t, k);
    if pc.r == r {
      ActOwn(c, s, t, k, r, st);
    } else {
      ActElse(c, s, t, k, r, st);
    }
  }

  lemma ActFacts(c: Config, s: State, t: nat, k: Choice)
    requires RunInv(c, s) && t in s.tasks && Handled(s.tasks[t].pc).Some?
    ensures var (db', m) := Resume(c, s.db, s.lock.None?, s.tasks[t].pc, k);
            && RowsKept(s.db.rows, db'.rows)
            && (m.At? && Handled(m.pc).Some? ==> m.pc.r == s.tasks[t].pc.r) && (m.At? ==> Handled(m.pc).Some?)
            && (m.Stay? ==> db' == s.db)
            && (db' == s.db || Owned(s.tasks[t].pc).Some? || s.tasks[t].pc.Commit? || s.tasks[t].pc.FailEmpty?)
    ensures var (db', m) := Resume(c, s.db, s.lock.None?, s.tasks[t].pc, k);
            var s' := Apply(s, t, db', m);
            forall q | q in s'.tasks && Recovering(c, s'.db, s'.tasks[q]) :: q in s.tasks && Recovering(c, s.db, s.tasks[q])
    ensures PcOk(c, s.db, s.tasks[t].pc) && (s.tasks[t].pc.Commit? ==> IsPending(s.db, s.tasks[t].pc.r))
    ensures forall q | q in s.tasks && q != t && Owned(s.tasks[t].pc).Some? :: Owned(s.tasks[q].pc) != Owned(s.tasks[t].pc)
  {
    assert TaskOk(c, s.db, s.inFlight, s.tasks[t]);
    assert forall q | q in s.tasks && q != t :: Apart(s.tasks[t], s.tasks[q]);
    AtEachTask(c, s);
    ResumeRowsKept(c, s.db, s.lock.None?, s.tasks[t].pc, k);
    ResumeShape(c, s.db, s.lock.None?, s.tasks[t].pc, k);
    var task := s.tasks[t];
    var (db', m) := Resume(c, s.db, s.lock.None?, task.pc, k);
    if task.driver.ByRecovery? && !Recovering(c, s.db, task) {
      StuckStays(c, s.db, s.lock.None?, task, k);
    }
    hide RunInv, Resume, Recovering, PcOk, OnlyOwnRow, DataOk;
    ActRecovering(c, s, t, db', m);
  }

  lemma ActOwn(c: Config, s: State, t: nat, k: Choice, r: RunId, st: RunStatus)
    requires RunInv(c, s) && Settled(c, s, r, st) && st != Pending && t in s.tasks && Handled(s.tasks[t].pc) == Some(r)
    ensures var (db', m) := Resume(c, s.db, s.lock.None?, s.tasks[t].pc, k); Settled(c, Apply(s, t, db', m), r, st)
  {
    var pc := s.tasks[t].pc;
    var (db', m) := Resume(c, s.db, s.lock.None?, pc, k);
    AtEachTask(c, s);
    ActFacts(c, s, t, k);
    NotEmpty(c, s, t, r, st);
    hide RunInv, Resume, PcOk, MayEnd, Recovering;
    ResumeOwn(c, s.db, s.seeds, s.lock.None?, pc, k, st);
    OwnApply(c, s, t, db', m, r, st);
  }

  lemma NotEmpty(c: Config, s: State, t: nat, r: RunId, st: RunStatus)
    requires Settled(c, s, r, st) && t in s.tasks && Handled(s.tasks[t].pc) == Some(r)
    ensures !s.tasks[t].pc.FailEmpty?
    ensures RowOf(s.tasks[t].pc).Some? ==> RowOf(s.tasks[t].pc).value < |s.db.rows|
    ensures !MayEnd(c, s.db, s.seeds, s.tasks[t].pc, st)
  {
  }

  lemma ActElse(c: Config, s: State, t: nat, k: Choice, r: RunId, st: RunStatus)
    requires RunInv(c, s) && Settled(c, s, r, st) && t in s.tasks && Handled(s.tasks[t].pc).Some? && s.tasks[t].pc.r != r
    ensures var (db', m) := Resume(c, s.db, s.lock.None?, s.tasks[t].pc, k); Settled(c, Apply(s, t, db', m), r, st)
  {
    var pc := s.tasks[t].pc;
    var (db', m) := Resume(c, s.db, s.lock.None?, pc, k);
    AtEachTask(c, s);
    ActFacts(c, s, t, k);
    hide RunInv, Resume, PcOk, MayEnd, Recovering, NoRunningEnds, NoStaleEnds;
    ResumeElsewhere(c, s.db, s.lock.None?, pc, k);
    ElsewhereCalm(s.db, db', s.seeds, pc.r, r);
    hide Calmer;
    CalmSettled(c, s, Apply(s, t, db', m), r, st);
  }

  // ---------------------------------------------------------------- every other event

  /** The recovery loop only adopts a row whose stage is there. */
  lemma AdoptsKnown(c: Config, s: State, t: nat, k: Choice)
    requires t in s.tasks && Handled(s.tasks[t].pc).None?
    ensures var pc := NextItem(c, s, t, k).tasks[t].pc;
            pc.RecoverRow? ==> s.tasks[t] == Task(ByRecovery, Idle) && Visits(s, k) && s.db.rows[k.row].stage in c.stages
    ensures NextItem(c, s, t, k).tasks[t].driver.ByRecovery? ==> s.tasks[t].driver.ByRecovery?
    ensures s.tasks[t].pc.Over? ==> NextItem(c, s, t, k).tasks[t].pc.Over?
  {
  }

  lemma FailedCalm(db: Db, seeds: map<RunId, SeedPc>, i: nat, status: RowStatus, r: RunId)
    requires status == RowFailed || status == RowCancelled
    ensures Calmer(db, seeds, CompleteRow(db, i, status), seeds, r)
    ensures RowsKept(db.rows, CompleteRow(db, i, status).rows)
  {
  }

  lemma SameCalm(db: Db, seeds: map<RunId, SeedPc>, r: RunId)
    ensures Calmer(db, seeds, db, seeds, r) && RowsKept(db.rows, db.rows)
  {
  }

  lemma ItemSettled(c: Config, s: State, t: nat, k: Choice, r: RunId, st: RunStatus)
    requires RunInv(c, s) && Settled(c, s, r, st) && t in s.tasks && Handled(s.tasks[t].pc).None?
    ensures Settled(c, NextItem(c, s, t, k), r, st)
  {
    var s' := NextItem(c, s, t, k);
    ItemShape(c, s, t, k);
    AdoptsKnown(c, s, t, k);
    AtEachTask(c, s);
    SameCalm(s.db, s.seeds, r);
    if s'.db != s.db {
      FailedCalm(s.db, s.seeds, k.row, RowFailed, r);
    }
    ItemRecovering(c, s, t, k);
    hide RunInv, NextItem, Calmer, NoRunningEnds;
    if s'.tasks[t].pc.RecoverRow? && s'.tasks[t].pc.r == r {
      AdoptSettled(c, s, s', t, k.row, r, st);
    } else {
      hide MayEnd, Recovering;
      CalmSettled(c, s, s', r, st);
    }
  }

  lemma ItemRecovering(c: Config, s: State, t: nat, k: Choice)
    requires RunInv(c, s) && t in s.tasks && Handled(s.tasks[t].pc).None?
    ensures var s' := NextItem(c, s, t, k);
            forall q | q in s'.tasks && Recovering(c, s'.db, s'.tasks[q]) :: q in s.tasks && Recovering(c, s.db, s.tasks[q])
  {
    var s' := NextItem(c, s, t, k);
    ItemShape(c, s, t, k);
    AdoptsKnown(c, s, t, k);
    AtEachTask(c, s);
    if s'.db != s.db {
      FailedCalm(s.db, s.seeds, k.row, RowFailed, 0);
    }
    hide RunInv, NextItem, CompleteRow;
  }

  /** Adopting a row of the run: the loop was going, so the row leads to no end. */
  lemma AdoptSettled(c: Config, s: State, s': State, t: nat, i: nat, r: RunId, st: RunStatus)
    requires Settled(c, s, r, st) && t in s.tasks && s.tasks[t] == Task(ByRecovery, Idle)
    requires i in s.stale && i < |s.db.rows| && s.db.rows[i].run == r && s.db.rows[i].stage in c.stages
    requires t in s'.tasks && s'.tasks == s.tasks[t := s'.tasks[t]] && s'.tasks[t].pc == RecoverRow(r, i)
    requires s'.db == s.db && s'.seeds == s.seeds && s'.stale <= s.stale
    ensures Settled(c, s', r, st)
  {
    assert Recovering(c, s.db, s.tasks[t]);
    assert !RecoveryEnds(c, s.db.rows[i]);
    hide FailureEnds, NoRunningEnds, Recovering;
  }

  lemma OutsideCalmer(c: Config, s: State, e: Event, r: RunId)
    requires r in s.db.runs
    requires e.NewRun? || e.Trigger? || e.TriggerRead? || e.TriggerInsert? || IsCancel(e)
    ensures var s' := Next(c, s, e);
            && Calmer(s.db, s.seeds, s'.db, s'.seeds, r) && RowsKept(s.db.rows, s'.db.rows)
            && s'.tasks == s.tasks && s'.stale == s.stale
            && r in s'.db.runs && (s'.db.runs[r] == s.db.runs[r] || (e == CancelRun(r) && s'.db.runs[r] == Cancelled))
  {
    hide ActStep, MaxAttempt;
  }

  lemma OutsideSettled(c: Config, s: State, e: Event, r: RunId, st: RunStatus)
    requires RunInv(c, s) && Settled(c, s, r, st) && (st == Cancelled || e != CancelRun(r))
    requires e.NewRun? || e.Trigger? || e.TriggerRead? || e.TriggerInsert? || IsCancel(e)
    ensures Settled(c, Next(c, s, e), r, st)
  {
    OutsideCalmer(c, s, e, r);
    AtEachTask(c, s);
    SameRecovering(c, s, Next(c, s, e));
    hide RunInv, Next, Calmer, MayEnd, Recovering, NoRunningEnds, NoStaleEnds;
    CalmSettled(c, s, Next(c, s, e), r, st);
  }

  lemma SameRecovering(c: Config, s: State, s': State)
    requires RowsKept(s.db.rows, s'.db.rows)
    requires forall q | q in s.tasks && RowOf(s.tasks[q].pc).Some? :: RowOf(s.tasks[q].pc).value < |s.db.rows|
    requires forall q | q in s'.tasks && s'.tasks[q].driver.ByRecovery? && !s'.tasks[q].pc.Over? :: q in s.tasks && s'.tasks[q] == s.tasks[q]
    ensures forall q | q in s'.tasks && Recovering(c, s'.db, s'.tasks[q]) :: q in s.tasks && Recovering(c, s.db, s.tasks[q])
  {
  }

  lemma SpawnSettled(c: Config, s: State, e: Event, r: RunId, st: RunStatus)
    requires RunInv(c, s) && Settled(c, s, r, st) && (e.Deliver? || e.StartDrain? || e.Throw? || e.Crash?)
    ensures Settled(c, Next(c, s, e), r, st)
  {
    AtEachTask(c, s);
    SpawnShape(c, s, e);
    SameCalm(s.db, s.seeds, r);
    SameRecovering(c, s, Next(c, s, e));
    hide RunInv, Next, Calmer, MayEnd, Recovering, NoRunningEnds, NoStaleEnds;
    CalmSettled(c, s, Next(c, s, e), r, st);
  }

  lemma SpawnShape(c: Config, s: State, e: Event)
    requires e.Deliver? || e.StartDrain? || e.Throw? || e.Crash?
    ensures var s' := Next(c, s, e);
            && s'.db == s.db && s'.seeds == s.seeds && s'.stale <= s.stale
            && forall q | q in s'.tasks ::
                 || (q in s.tasks && s'.tasks[q] == s.tasks[q])
                 || s'.tasks[q].pc.Over?
                 || (!s'.tasks[q].driver.ByRecovery? && (Handled(s'.tasks[q].pc).None? || s'.tasks[q].pc.GetRun?))
  {
    hide ActStep;
  }

  /** A restart looks at the running rows, none of which leads to an end. */
  lemma BootSettled(c: Config, s: State, t: nat, r: RunId, st: RunStatus)
    requires Settled(c, s, r, st)
    ensures Settled(c, Next(c, s, Boot(t)), r, st)
  {
    hide ActStep, FailureEnds, MayEnd;
  }

  lemma SettledStep(c: Config, s: State, e: Event, r: RunId, st: RunStatus)
    requires RunInv(c, s) && Settled(c, s, r, st) && st != Pending && (st == Cancelled || e != CancelRun(r))
    ensures Settled(c, Next(c, s, e), r, st)
  {
    hide RunInv, Settled, Resume, NextItem, Apply, Unwind;
    match e
    case Act(t, k) =>
      if t in s.tasks {
        if Handled(s.tasks[t].pc).Some? { ActSettled(c, s, t, k, r, st); } else { ItemSettled(c, s, t, k, r, st); }
      }
    case Deliver(_, _) => SpawnSettled(c, s, e, r, st);
    case StartDrain(_) => SpawnSettled(c, s, e, r, st);
    case Throw(_) => SpawnSettled(c, s, e, r, st);
    case Crash => SpawnSettled(c, s, e, r, st);
    case Boot(t) => BootSettled(c, s, t, r, st);
    case _ => OutsideSettled(c, s, e, r, st);
  }

  predicate Allowed(events: seq<Event>, r: RunId, st: RunStatus) {
    st == Cancelled || CancelRun(r) !in events
  }

  lemma {:induction false} SettledAlways(c: Config, s: State, events: seq<Event>, r: RunId, st: RunStatus)
    requires RunInv(c, s) && Settled(c, s, r, st) && st != Pending && Allowed(events, r, st)
    ensures Settled(c, Run(c, s, events), r, st)
    decreases |events|
  {
    if events != [] {
      assert events[0] in events && forall e | e in events[1..] :: e in events;
      hide RunInv, Settled, Next;
      InvStep(c, s, events[0]);
      SettledStep(c, s, events[0], r, st);
      SettledAlways(c, Next(c, s, events[0]), events[1..], r, st);
    }
  }
}

/** When a cancellation lasts, for a run and for a stage row, and at which awaits a crash strands a run. */
module RunEndings {
  import opened Wrappers
  import opened PipelineRuns
  import opened RunMachine
  import opened RunSlots
  import opened RunInvariant
  import opened RunCancel
  import opened RunTraces
  import opened RunFate
  import opened RunOverturn

  // ---------------------------------------------------------------- cancelled runs

  /** In every reachable state: a cancelled run stays cancelled, whatever happens later, if and only if nothing
      under way can end it. */
  lemma CancelledForGoodIff(c: Config, s: State, before: seq<Event>, r: RunId)
    requires Init(c, s)
    requires var s1 := Run(c, s, before); r in s1.db.runs && s1.db.runs[r] == Cancelled
    ensures var s1 := Run(c, s, before);
            Settled(c, s1, r, Cancelled) <==> forall after :: Stays(c, s1, after, r, Cancelled)
  {
    InitInv(c, s);
    InvAlways(c, s, before);
    var s1 := Run(c, s, before);
    StaysIff(c, s1, r, Cancelled);
    assert forall after :: Allowed(after, r, Cancelled);
  }

  /** Run and row are cancelled before the driver is even started, and so before the check; the running write
      takes the row back, and the run ends with the driver's verdict. */
  lemma CancelledAtGateLost()
    ensures exists before, after ::
              var s1 := Run(OneStage(None), EMPTY, before);
              var s2 := Run(OneStage(None), s1, after);
              && 1 in s1.tasks && s1.tasks[1].pc == Gate(0, 0) && s1.db == Db(map[0 := Cancelled], [FIRST.(status := RowCancelled)])
              && s2.db == Db(map[0 := Blocked], [FIRST.(status := RowCompleted, started := true)])
  {
    var c := OneStage(None);
    ReachGate(None);
    var first :| Run(c, EMPTY, first) == Seen(AT_GATE);
    var cancels := [CancelRow(0), CancelRun(0)];
    RunConcat(c, EMPTY, first, cancels);
    CancelBoth();
    FinishCancelled();
    var after :| Run(c, Seen(CANCELLED), after) == Seen(JUDGED.(pc := Hook(0), status := Blocked));
    assert Run(c, EMPTY, first + cancels) == Seen(CANCELLED);
  }

  lemma CancelBoth()
    ensures Run(OneStage(None), Seen(AT_GATE), [CancelRow(0), CancelRun(0)]) == Seen(CANCELLED)
  {
    var c, s := OneStage(None), Seen(AT_GATE);
    var s1 := Seen(AT_GATE.(rows := [FIRST.(status := RowCancelled)], cancelUsed := true));
    assert Next(c, s, CancelRow(0)) == s1;
    assert Next(c, s1, CancelRun(0)).db.runs == map[0 := Cancelled];
    RunTwo(c, s, CancelRow(0), CancelRun(0));
  }

  lemma RunTwo(c: Config, s: State, e: Event, f: Event)
    ensures Run(c, s, [e, f]) == Next(c, Next(c, s, e), f)
  {
    assert [e, f][1..] == [f];
    RunOne(c, Next(c, s, e), f);
  }

  /** From one view to another by the daemon's own awaits. */
  ghost predicate Leads(c: Config, v: View, v': View) {
    exists events :: Run(c, Seen(v), events) == Seen(v')
  }

  lemma LeadsAct(c: Config, u: View, v: View, k: Choice, v': View)
    requires Leads(c, u, v) && Handled(v.pc) == Some(0) && !v.pc.Commit? && !v.pc.Lock? && !v.pc.Write?
    requires Resume(c, Db(map[0 := v.status], v.rows), v.lock.None?, v.pc, k) == (Db(map[0 := v'.status], v'.rows), At(v'.pc))
    requires v' == v.(pc := v'.pc, status := v'.status, rows := v'.rows)
    ensures Leads(c, u, v')
  {
    hide Resume;
    assert Seen(v).tasks[1 := Task(ByEvent, v'.pc)] == Seen(v').tasks;
    assert Next(c, Seen(v), Act(1, k)) == Seen(v');
    var events :| Run(c, Seen(u), events) == Seen(v);
    hide Next;
    RunConcat(c, Seen(u), events, [Act(1, k)]);
    RunOne(c, Seen(v), Act(1, k));
  }

  const CANCELLED := AT_GATE.(status := Cancelled, rows := [FIRST.(status := RowCancelled)], cancelUsed := true)
  const TAKEN_BACK := CANCELLED.(rows := [FIRST.(status := RowRunning, started := true)])
  const JUDGED := CANCELLED.(rows := [FIRST.(status := RowCompleted, started := true)])

  lemma StartCancelled()
    ensures Leads(OneStage(None), CANCELLED, TAKEN_BACK.(pc := Exec(0, 0)))
  {
    var c, v := OneStage(None), CANCELLED;
    assert Run(c, Seen(v), []) == Seen(v);
    hide Leads, Seen;
    assert v.rows[0 := TAKEN_BACK.rows[0]] == TAKEN_BACK.rows;
    LeadsAct(c, v, v, Prep(Ready), v.(pc := Start(0, 0)));
    LeadsAct(c, v, v.(pc := Start(0, 0)), Go, TAKEN_BACK.(pc := Exec(0, 0)));
  }

  lemma CheckCancelled()
    ensures Leads(OneStage(None), CANCELLED, TAKEN_BACK.(pc := Complete(0, 0, RowCompleted, ThenRoute(Proceed))))
  {
    var c, v, w := OneStage(None), CANCELLED, TAKEN_BACK;
    StartCancelled();
    hide Leads, Seen;
    LeadsAct(c, v, w.(pc := Exec(0, 0)), Go, w.(pc := Drive(0, 0)));
    LeadsAct(c, v, w.(pc := Drive(0, 0)), Ran(Said(Proceed)), w.(pc := Check(0, 0, Said(Proceed))));
    LeadsAct(c, v, w.(pc := Check(0, 0, Said(Proceed))), Go, w.(pc := Complete(0, 0, RowCompleted, ThenRoute(Proceed))));
  }

  lemma FinishCancelled()
    ensures Leads(OneStage(None), CANCELLED, JUDGED.(pc := Hook(0), status := Blocked))
  {
    var c, v, w, x := OneStage(None), CANCELLED, TAKEN_BACK, JUDGED;
    CheckCancelled();
    hide Leads, Seen;
    assert w.rows[0 := x.rows[0]] == x.rows && map[0 := Cancelled][0 := Blocked] == map[0 := Blocked];
    LeadsAct(c, v, w.(pc := Complete(0, 0, RowCompleted, ThenRoute(Proceed))), Subject(false), x.(pc := Finish(0, Blocked)));
    LeadsAct(c, v, x.(pc := Finish(0, Blocked)), Go, x.(pc := Hook(0), status := Blocked));
  }

  const AT_FINISH := AT_GATE.(pc := Finish(0, Failed), rows := [FIRST.(status := RowFailed)])

  lemma ReachFinish()
    ensures Reachable(OneStage(None), Seen(AT_FINISH))
  {
    var c := OneStage(None);
    var v := AT_GATE.(pc := Complete(0, 0, RowFailed, ThenFinish(Failed)));
    ReachGate(None);
    hide Reachable, Seen;
    assert AT_GATE.rows[0 := AT_FINISH.rows[0]] == AT_FINISH.rows;
    ReachAct(c, AT_GATE, Prep(NoDriver), v);
    ReachAct(c, v, Go, AT_FINISH);
  }

  /** A cancellation that arrives once the final status is decided is overwritten by it. */
  lemma CancelledAtFinishLost()
    ensures exists before, after ::
              var s1 := Run(OneStage(None), EMPTY, before);
              var s2 := Run(OneStage(None), s1, after);
              && 1 in s1.tasks && s1.tasks[1].pc == Finish(0, Failed) && s1.db.runs == map[0 := Cancelled]
              && s2.db.runs == map[0 := Failed]
  {
    var c := OneStage(None);
    var y := AT_FINISH.(status := Cancelled, cancelUsed := true);
    ReachFinish();
    assert Next(c, Seen(AT_FINISH), CancelRun(0)).db.runs == map[0 := Cancelled];
    assert Next(c, Seen(AT_FINISH), CancelRun(0)) == Seen(y);
    LateCancelLost(c, Seen(AT_FINISH), 1, Go);
    StillOneRun(c, Seen(y));
    hide Reachable, Next;
    Reach(c, Seen(AT_FINISH), CancelRun(0), Seen(y));
    var before :| Run(c, EMPTY, before) == Seen(y) by { AsRun(c, Seen(y)); }
    RunOne(c, Seen(y), Act(1, Go));
    assert Run(c, Seen(y), [Act(1, Go)]).db.runs == map[0 := Failed];
  }

  lemma AsRun(c: Config, s: State)
    requires Reachable(c, s)
    ensures exists before :: Run(c, EMPTY, before) == s
  {
  }

  lemma StillOneRun(c: Config, s: State)
    requires 1 in s.tasks && s.tasks[1].pc == Finish(0, Failed) && s.db.runs.Keys == {0}
    ensures Next(c, s, Act(1, Go)).db.runs.Keys == {0}
  {
    hide Handle, Launch;
  }

  // ---------------------------------------------------------------- cancelled rows

  /** An activation is about to hold the row at its gate, or to mark it running. */
  predicate AboutToWrite(pc: Pc, i: nat) {
    (pc.Gate? || pc.Start?) && pc.i == i
  }

  predicate RowCancelledAt(db: Db, i: nat) {
    i < |db.rows| && db.rows[i].status == RowCancelled
  }

  predicate RowSafe(s: State, i: nat) {
    RowCancelledAt(s.db, i) && forall t | t in s.tasks :: !AboutToWrite(s.tasks[t].pc, i)
  }

  lemma ResumeRowSafe(c: Config, db: Db, lockFree: bool, pc: Pc, k: Choice, i: nat)
    requires Handled(pc).Some? && RowCancelledAt(db, i) && !AboutToWrite(pc, i)
    ensures var (db', m) := Resume(c, db, lockFree, pc, k);
            RowCancelledAt(db', i) && (m.At? ==> !AboutToWrite(m.pc, i))
  {
    hide Handle, Launch, Settle;
    if RowOf(pc).Some? && |db.rows| <= RowOf(pc).value {
    } else if InHandle(pc) {
      HandleRowSafe(c, db, lockFree, pc, i);
    } else if InLaunch(pc) {
      LaunchRowSafe(c, db, pc, k, i);
    } else {
      SettleRowSafe(c, db, pc, k, i);
    }
  }

  lemma HandleRowSafe(c: Config, db: Db, lockFree: bool, pc: Pc, i: nat)
    requires InHandle(pc) && RowCancelledAt(db, i)
    ensures var (db', m) := Handle(c, db, lockFree, pc); RowCancelledAt(db', i) && (m.At? ==> !AboutToWrite(m.pc, i))
  {
    hide RunningCount;
  }

  lemma LaunchRowSafe(c: Config, db: Db, pc: Pc, k: Choice, i: nat)
    requires InLaunch(pc) && RowCancelledAt(db, i) && !AboutToWrite(pc, i) && (RowOf(pc).Some? ==> RowOf(pc).value < |db.rows|)
    ensures var (db', m) := Launch(c, db, pc, k); RowCancelledAt(db', i) && (m.At? ==> !AboutToWrite(m.pc, i))
  {
    hide MaxAttempt;
  }

  lemma SettleRowSafe(c: Config, db: Db, pc: Pc, k: Choice, i: nat)
    requires Handled(pc).Some? && !InHandle(pc) && !InLaunch(pc) && RowCancelledAt(db, i)
    requires RowOf(pc).Some? ==> RowOf(pc).value < |db.rows|
    ensures var (db', m) := Settle(c, db, pc, k); RowCancelledAt(db', i) && (m.At? ==> !AboutToWrite(m.pc, i))
  {
    hide RouteTo;
  }

  lemma RowSafeStep(c: Config, s: State, e: Event, i: nat)
    requires RowSafe(s, i)
    ensures RowSafe(Next(c, s, e), i)
  {
    if e.Act? && e.t in s.tasks {
      if Handled(s.tasks[e.t].pc).Some? {
        ResumeRowSafe(c, s.db, s.lock.None?, s.tasks[e.t].pc, e.choice, i);
        hide Resume, RowCancelledAt;
      } else {
        ItemShape(c, s, e.t, e.choice);
        hide NextItem;
      }
    } else {
      hide ActStep, MaxAttempt;
    }
  }

  ghost predicate RowStays(c: Config, s: State, events: seq<Event>, i: nat) {
    RowCancelledAt(Run(c, s, events).db, i)
  }

  lemma {:induction false} RowSafeAlways(c: Config, s: State, events: seq<Event>, i: nat)
    requires RowSafe(s, i)
    ensures RowStays(c, s, events, i)
    decreases |events|
  {
    if events != [] {
      hide RowSafe, Next;
      RowSafeStep(c, s, events[0], i);
      RowSafeAlways(c, Next(c, s, events[0]), events[1..], i);
    }
  }

  lemma RowTakenBack(c: Config, s: State, t: nat, i: nat)
    requires t in s.tasks && AboutToWrite(s.tasks[t].pc, i) && i < |s.db.rows|
    ensures exists events :: !RowStays(c, s, events, i)
  {
    var pc := s.tasks[t].pc;
    if pc.Start? {
      StartTakesBack(c, s, t, i);
      RunOne(c, s, Act(t, Go));
      assert !RowStays(c, s, [Act(t, Go)], i);
    } else {
      var s1 := Next(c, s, Act(t, Prep(Ready)));
      GateTakesBack(c, s, t, i);
      RunOne(c, s, Act(t, Prep(Ready)));
      RunTwo(c, s, Act(t, Prep(Ready)), Act(t, Go));
      hide Next;
      if Held(c, s.db.rows[i].stage) {
        assert !RowStays(c, s, [Act(t, Prep(Ready))], i);
      } else {
        StartTakesBack(c, s1, t, i);
        assert !RowStays(c, s, [Act(t, Prep(Ready)), Act(t, Go)], i);
      }
    }
  }

  lemma GateTakesBack(c: Config, s: State, t: nat, i: nat)
    requires t in s.tasks && s.tasks[t].pc.Gate? && s.tasks[t].pc.i == i && i < |s.db.rows|
    ensures var s1 := Next(c, s, Act(t, Prep(Ready)));
            && (Held(c, s.db.rows[i].stage) ==> !RowCancelledAt(s1.db, i))
            && (!Held(c, s.db.rows[i].stage) ==> t in s1.tasks && s1.tasks[t].pc.Start? && s1.tasks[t].pc.i == i && s1.db == s.db)
  {
    hide Handle, Settle;
  }

  lemma StartTakesBack(c: Config, s: State, t: nat, i: nat)
    requires t in s.tasks && s.tasks[t].pc.Start? && s.tasks[t].pc.i == i && i < |s.db.rows|
    ensures !RowCancelledAt(Next(c, s, Act(t, Go)).db, i)
  {
    hide Handle, Settle;
  }

  /** In every state: a cancelled row stays cancelled, whatever happens later, if and only if no activation is
      at its gate or about to mark it running. A row that has been running is never at either in a reachable
      state. */
  lemma RowStaysIff(c: Config, s: State, i: nat)
    requires RowCancelledAt(s.db, i)
    ensures (forall t | t in s.tasks :: !AboutToWrite(s.tasks[t].pc, i)) <==> forall events :: RowStays(c, s, events, i)
    ensures RunInv(c, s) && s.db.rows[i].started ==> forall t | t in s.tasks :: !AboutToWrite(s.tasks[t].pc, i)
  {
    if RowSafe(s, i) {
      forall events
        ensures RowStays(c, s, events, i)
      {
        RowSafeAlways(c, s, events, i);
      }
    } else {
      var t :| t in s.tasks && AboutToWrite(s.tasks[t].pc, i);
      RowTakenBack(c, s, t, i);
    }
    if RunInv(c, s) {
      assert forall t | t in s.tasks :: TaskOk(c, s.db, s.inFlight, s.tasks[t]);
    }
  }

  // ---------------------------------------------------------------- stranded by a crash

  /** Once the daemon has crashed, the run stays running for ever, unless somebody cancels it. */
  ghost predicate Stranded(c: Config, s: State, r: RunId) {
    forall after | CancelRun(r) !in after :: Stays(c, Next(c, s, Crash), after, r, Running)
  }

  /** A crash strands a running run if and only if none of its rows is running at a stage whose recovery can
      end it: recovery looks at running rows only. */
  lemma StrandedIff(c: Config, s: State, r: RunId)
    requires RunInv(c, s) && r in s.db.runs && s.db.runs[r] == Running
    ensures Stranded(c, s, r) <==> NoRunningEnds(c, s.db, r)
  {
    var s1 := Next(c, s, Crash);
    InvStep(c, s, Crash);
    hide RunInv;
    StaysIff(c, s1, r, Running);
    assert forall after :: Allowed(after, r, Running) <==> CancelRun(r) !in after;
    assert s1.db == s.db && s1.tasks == map[];
    assert Settled(c, s1, r, Running) <==> NoRunningEnds(c, s.db, r);
  }

  /** For a run that an activation drives: a crash strands it exactly at the awaits at which its row is not
      marked running, that is from the claim to the running write and from the row's completion to the next
      running write or the final status. */
  lemma StrandingAwaits(c: Config, s: State, before: seq<Event>, t: nat)
    requires Init(c, s)
    requires var s1 := Run(c, s, before);
             && t in s1.tasks && Owned(s1.tasks[t].pc).Some?
             && s1.tasks[t].pc.r in s1.db.runs && s1.db.runs[s1.tasks[t].pc.r] == Running
    ensures var s1 := Run(c, s, before);
            var pc := s1.tasks[t].pc;
            Stranded(c, s1, pc.r) <==>
            !(MayRun(pc) && pc.i < |s1.db.rows| && s1.db.rows[pc.i].status == RowRunning && RecoveryEnds(c, s1.db.rows[pc.i]))
  {
    InitInv(c, s);
    InvAlways(c, s, before);
    var s1 := Run(c, s, before);
    var pc := s1.tasks[t].pc;
    assert TaskOk(c, s1.db, s1.inFlight, s1.tasks[t]);
    StrandedIff(c, s1, pc.r);
    hide RunInv, RecoveryEnds, Stranded, CauseOk, RetryBelow;
    assert MayRun(pc) ==> pc.i < |s1.db.rows| && s1.db.rows[pc.i].run == pc.r;
  }

  /** An execution from an empty database: the daemon crashes with run 0 at its gate, and the run stays running
      and keeps its slot under every continuation in which nobody cancels it. */
  lemma StrandedAtGate()
    ensures exists before ::
              var s := Run(OneStage(None), EMPTY, before);
              && 1 in s.tasks && s.tasks[1].pc == Gate(0, 0)
              && s.db.runs == map[0 := Running] && Stranded(OneStage(None), s, 0)
  {
    ReachGate(None);
    var before :| Run(OneStage(None), EMPTY, before) == Seen(AT_GATE);
    hide Stranded, Run;
    StrandingAwaits(OneStage(None), EMPTY, before, 1);
  }
}

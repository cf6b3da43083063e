/**
 Where a verdict sends a run, read off the stage's own columns; and what it takes for a run to be completed.
 */
module RunRouting {
  import opened Wrappers
  import opened PipelineRuns
  import opened RunMachine
  import opened RunSlots
  import opened RunInvariant
  import opened RunAttempts
  import opened RunTraces

  // ---------------------------------------------------------------- one verdict

  /** The verdict's column of the stage holds this name: onPass for proceed, onFail for rework, fallback for
      anything else. */
  predicate Column(stage: Stage, v: Verdict, name: string) {
    || (v == Proceed && stage.onPass == Some(name))
    || (v == Rework && stage.onFail == Some(name))
    || (v != Proceed && v != Rework && stage.fallback == Some(name))
  }

  /** `s` is the first stage of that name in the pipeline. */
  ghost predicate FirstNamed(c: Config, ids: seq<StageId>, name: string, s: StageId) {
    exists i :: 0 <= i < |ids| && ids[i] == s && IsNamed(c, s, name) && forall j | 0 <= j < i :: !IsNamed(c, ids[j], name)
  }

  /** The column names a stage, and this is the one. */
  ghost predicate LeadsTo(c: Config, r: RunId, stage: Stage, v: Verdict, s: StageId) {
    exists name :: Column(stage, v, name) && name != "" && name != "__complete__" && name != "__blocked__"
                   && FirstNamed(c, c.pipeline(r), name, s)
  }

  /** What follows a row whose driver gave a verdict: the run fails if its issue is gone; else it is completed
      if and only if the verdict's column says `__complete__`, goes on at a stage if and only if the column
      names it, and is blocked in every other case. */
  lemma RoutesByColumn(c: Config, r: RunId, row: StageRun, v: Verdict, gone: bool)
    requires row.stage in c.stages
    ensures
      var stage := c.stages[row.stage];
      var pc := Follow(c, r, row, ThenRoute(v), gone);
      && (gone ==> pc == Finish(r, Failed))
      && (!gone ==>
            && (pc == Finish(r, Completed) <==> Column(stage, v, "__complete__"))
            && (forall s: StageId :: pc == ReadMax(r, s, Entry) <==> LeadsTo(c, r, stage, v, s))
            && (pc == Finish(r, Blocked) <==>
                !Column(stage, v, "__complete__") && forall s: StageId :: !LeadsTo(c, r, stage, v, s)))
  {
    var stage := c.stages[row.stage];
    if !gone {
      forall name | Column(stage, v, name)
        ensures forall s: StageId :: FirstNamed(c, c.pipeline(r), name, s) <==> FindByName(c, c.pipeline(r), name) == Some(s)
      {
        FirstNamedIff(c, c.pipeline(r), name);
      }
      hide FirstNamed, FindByName;
      OneColumn(stage, v);
    }
  }

  lemma OneColumn(stage: Stage, v: Verdict)
    ensures forall a, b | Column(stage, v, a) && Column(stage, v, b) :: a == b
  {
  }

  lemma FirstNamedIff(c: Config, ids: seq<StageId>, name: string)
    ensures forall s: StageId :: FirstNamed(c, ids, name, s) <==> FindByName(c, ids, name) == Some(s)
  {
    FindByNameExact(c, ids, name);
  }

  // ---------------------------------------------------------------- completed runs

  /** The k-th event of the execution is a driver's verdict on a row of this run and stage. */
  ghost predicate SpokeAt(c: Config, s: State, events: seq<Event>, k: nat, r: RunId, v: Verdict, stage: StageId)
    requires k < |events|
  {
    var before := Run(c, s, events[..k]);
    var e := events[k];
    && e.Act? && e.choice == Ran(Said(v)) && e.t in before.tasks
    && var pc := before.tasks[e.t].pc;
       pc.Drive? && pc.r == r && pc.i < |before.db.rows| && before.db.rows[pc.i].stage == stage
  }

  ghost predicate Spoke(c: Config, s: State, events: seq<Event>, r: RunId, v: Verdict, stage: StageId) {
    exists k :: 0 <= k < |events| && SpokeAt(c, s, events, k, r, v, stage)
  }

  /** Some driver of the run gave a verdict whose column says that the run is complete. */
  ghost predicate SaidComplete(c: Config, s: State, events: seq<Event>, r: RunId) {
    exists v, stage :: stage in c.stages && Spoke(c, s, events, r, v, stage) && Column(c.stages[stage], v, "__complete__")
  }

  /** An activation past its driver carries a verdict that was given. */
  ghost predicate VoicePc(c: Config, s: State, events: seq<Event>, rows: seq<StageRun>, pc: Pc) {
    && (pc.Check? && pc.o.Said? ==> pc.i < |rows| && Spoke(c, s, events, pc.r, pc.o.v, rows[pc.i].stage))
    && (pc.Complete? && pc.after.ThenRoute? ==> pc.i < |rows| && Spoke(c, s, events, pc.r, pc.after.v, rows[pc.i].stage))
    && (pc.Finish? && pc.final == Completed ==> SaidComplete(c, s, events, pc.r))
  }

  ghost predicate VoiceInv(c: Config, s: State, events: seq<Event>) {
    var now := Run(c, s, events);
    forall t :: t in now.tasks ==> VoicePc(c, s, events, now.db.rows, now.tasks[t].pc)
  }

  lemma RunSnoc(c: Config, s: State, events: seq<Event>, e: Event)
    ensures Run(c, s, events + [e]) == Next(c, Run(c, s, events), e)
  {
    RunConcat(c, s, events, [e]);
    RunOne(c, Run(c, s, events), e);
  }

  lemma SpokeStays(c: Config, s: State, events: seq<Event>, e: Event, r: RunId, v: Verdict, stage: StageId)
    requires Spoke(c, s, events, r, v, stage)
    ensures Spoke(c, s, events + [e], r, v, stage)
  {
    var k :| 0 <= k < |events| && SpokeAt(c, s, events, k, r, v, stage);
    assert (events + [e])[..k] == events[..k] && (events + [e])[k] == events[k];
    hide Run;
    assert SpokeAt(c, s, events + [e], k, r, v, stage);
  }

  ghost predicate KeepsStages(a: seq<StageRun>, b: seq<StageRun>) {
    |a| <= |b| && forall i | 0 <= i < |a| :: b[i].stage == a[i].stage
  }

  lemma VoiceStays(c: Config, s: State, events: seq<Event>, e: Event, rows: seq<StageRun>, rows': seq<StageRun>, pc: Pc)
    requires VoicePc(c, s, events, rows, pc) && KeepsStages(rows, rows')
    ensures VoicePc(c, s, events + [e], rows', pc)
  {
    hide Spoke;
    forall r, v, stage | Spoke(c, s, events, r, v, stage)
      ensures Spoke(c, s, events + [e], r, v, stage)
    {
      SpokeStays(c, s, events, e, r, v, stage);
    }
    if SaidComplete(c, s, events, if pc.Finish? then pc.r else 0) {
      var v, stage :| stage in c.stages && Spoke(c, s, events, if pc.Finish? then pc.r else 0, v, stage) && Column(c.stages[stage], v, "__complete__");
      assert Spoke(c, s, events + [e], if pc.Finish? then pc.r else 0, v, stage);
    }
  }

  /** Where the three awaits that carry a verdict are reached from. */
  ghost predicate Carries(c: Config, db: Db, pc: Pc, k: Choice, m: Move) {
    m.At? ==>
      && (m.pc.Check? && m.pc.o.Said? ==> pc == Drive(m.pc.r, m.pc.i) && pc.i < |db.rows| && k == Ran(m.pc.o))
      && (m.pc.Complete? && m.pc.after.ThenRoute? ==> pc == Check(m.pc.r, m.pc.i, Said(m.pc.after.v)) && pc.i < |db.rows|)
      && (m.pc.Finish? && m.pc.final == Completed ==>
            && pc.Complete? && pc.after.ThenRoute? && pc.r == m.pc.r && pc.i < |db.rows|
            && db.rows[pc.i].stage in c.stages && Column(c.stages[db.rows[pc.i].stage], pc.after.v, "__complete__"))
  }

  lemma LaunchCarries(c: Config, db: Db, pc: Pc, k: Choice)
    requires InLaunch(pc) && PcOk(c, db, pc)
    ensures Carries(c, db, pc, k, Launch(c, db, pc, k).1)
  {
    hide MaxAttempt, RetryBelow, CauseOk;
  }

  lemma SettleCarries(c: Config, db: Db, pc: Pc, k: Choice)
    requires Handled(pc).Some? && !InHandle(pc) && !InLaunch(pc) && PcOk(c, db, pc)
    ensures Carries(c, db, pc, k, Settle(c, db, pc, k).1)
  {
    if pc.Complete? && pc.after.ThenRoute? && db.rows[pc.i].stage in c.stages {
      RoutesByColumn(c, pc.r, db.rows[pc.i], pc.after.v, k.Subject? && k.gone);
    }
    hide RetryBelow, CauseOk, RouteTo, LeadsTo;
  }

  lemma HandleCarries(c: Config, db: Db, lockFree: bool, pc: Pc, k: Choice)
    requires InHandle(pc)
    ensures Carries(c, db, pc, k, Handle(c, db, lockFree, pc).1)
  {
    hide RunningCount;
  }

  lemma ResumeCarries(c: Config, db: Db, lockFree: bool, pc: Pc, k: Choice)
    requires Handled(pc).Some? && PcOk(c, db, pc)
    ensures Carries(c, db, pc, k, Resume(c, db, lockFree, pc, k).1)
  {
    hide Handle, Launch, Settle, Carries;
    if InHandle(pc) {
      HandleCarries(c, db, lockFree, pc, k);
    } else if InLaunch(pc) {
      LaunchCarries(c, db, pc, k);
    } else {
      SettleCarries(c, db, pc, k);
    }
  }

  lemma OwnVoice(c: Config, s: State, events: seq<Event>, t: nat, k: Choice, db: Db, pc: Pc, m: Move, rows': seq<StageRun>)
    requires VoicePc(c, s, events, db.rows, pc) && Carries(c, db, pc, k, m) && KeepsStages(db.rows, rows')
    requires var now := Run(c, s, events); t in now.tasks && now.tasks[t].pc == pc && now.db == db
    ensures m.At? ==> VoicePc(c, s, events + [Act(t, k)], rows', m.pc)
  {
    var e := Act(t, k);
    VoiceStays(c, s, events, e, db.rows, rows', pc);
    if m.At? && m.pc.Check? && m.pc.o.Said? {
      assert (events + [e])[..|events|] == events && (events + [e])[|events|] == e;
      assert SpokeAt(c, s, events + [e], |events|, pc.r, m.pc.o.v, db.rows[pc.i].stage);
    }
    hide Run, Spoke;
    if m.At? && m.pc.Finish? && m.pc.final == Completed {
      assert Spoke(c, s, events + [e], pc.r, pc.after.v, db.rows[pc.i].stage);
    }
  }

  lemma StepStages(c: Config, s: State, e: Event)
    requires RunInv(c, s)
    ensures KeepsStages(s.db.rows, Next(c, s, e).db.rows)
  {
    InsertedRow(c, s, e);
    hide RunInv, Next, Overtaken, Inserted;
  }

  lemma ActVoice(c: Config, s: State, events: seq<Event>, t: nat, k: Choice)
    requires RunInv(c, Run(c, s, events)) && VoiceInv(c, s, events) && t in Run(c, s, events).tasks
    requires Handled(Run(c, s, events).tasks[t].pc).Some?
    ensures var now := Run(c, s, events);
            var (db', m) := Resume(c, now.db, now.lock.None?, now.tasks[t].pc, k);
            var s' := Apply(now, t, db', m);
            KeepsStages(now.db.rows, db'.rows) ==>
            forall q | q in s'.tasks :: VoicePc(c, s, events + [Act(t, k)], s'.db.rows, s'.tasks[q].pc)
  {
    var now := Run(c, s, events);
    var pc := now.tasks[t].pc;
    assert TaskOk(c, now.db, now.inFlight, now.tasks[t]);
    var (db', m) := Resume(c, now.db, now.lock.None?, pc, k);
    ResumeCarries(c, now.db, now.lock.None?, pc, k);
    hide RunInv, Resume, Run, PcOk, OnlyOwnRow, Carries;
    var s' := Apply(now, t, db', m);
    if KeepsStages(now.db.rows, db'.rows) {
      OwnVoice(c, s, events, t, k, now.db, pc, m, db'.rows);
      forall q | q in s'.tasks
        ensures VoicePc(c, s, events + [Act(t, k)], s'.db.rows, s'.tasks[q].pc)
      {
        VoiceStays(c, s, events, Act(t, k), now.db.rows, db'.rows, now.tasks[q].pc);
        SilentPc(c, s, events + [Act(t, k)], db'.rows);
        hide VoicePc;
      }
    }
  }

  lemma SilentPc(c: Config, s: State, events: seq<Event>, rows: seq<StageRun>)
    ensures forall pc: Pc | !pc.Check? && !pc.Complete? && !pc.Finish? :: VoicePc(c, s, events, rows, pc)
  {
  }

  lemma OtherVoice(c: Config, s: State, e: Event)
    requires !e.Act? || e.t !in s.tasks || Handled(s.tasks[e.t].pc).None?
    ensures var s' := Next(c, s, e);
            forall q | q in s'.tasks ::
              || (q in s.tasks && s'.tasks[q].pc == s.tasks[q].pc)
              || (!s'.tasks[q].pc.Check? && !s'.tasks[q].pc.Complete? && !s'.tasks[q].pc.Finish?)
  {
    if e.Act? && e.t in s.tasks {
      ItemShape(c, s, e.t, e.choice);
      hide NextItem;
    } else {
      hide ActStep, MaxAttempt;
    }
  }

  lemma VoiceStep(c: Config, s: State, events: seq<Event>, e: Event)
    requires RunInv(c, Run(c, s, events)) && VoiceInv(c, s, events)
    ensures VoiceInv(c, s, events + [e])
  {
    var now := Run(c, s, events);
    RunSnoc(c, s, events, e);
    StepStages(c, now, e);
    var s' := Next(c, now, e);
    if e.Act? && e.t in now.tasks && Handled(now.tasks[e.t].pc).Some? {
      hide RunInv, Resume, Run, VoicePc, KeepsStages;
      ActVoice(c, s, events, e.t, e.choice);
    } else {
      OtherVoice(c, now, e);
      hide RunInv, Run, Next, KeepsStages;
      SilentPc(c, s, events + [e], s'.db.rows);
      forall q | q in s'.tasks
        ensures VoicePc(c, s, events + [e], s'.db.rows, s'.tasks[q].pc)
      {
        if q in now.tasks && s'.tasks[q].pc == now.tasks[q].pc {
          VoiceStays(c, s, events, e, now.db.rows, s'.db.rows, now.tasks[q].pc);
        }
        hide VoicePc;
      }
    }
  }

  lemma {:induction false} VoiceAlways(c: Config, s: State, events: seq<Event>)
    requires Init(c, s)
    ensures RunInv(c, Run(c, s, events)) && VoiceInv(c, s, events)
    decreases |events|
  {
    InitInv(c, s);
    InvAlways(c, s, events);
    if events != [] {
      var before := events[..|events| - 1];
      assert events == before + [events[|events| - 1]];
      hide VoiceInv, RunInv, Run;
      VoiceAlways(c, s, before);
      VoiceStep(c, s, before, events[|events| - 1]);
    }
  }

  /** The step writes completed into a run that was not. */
  predicate Completes(c: Config, s: State, e: Event, r: RunId) {
    && (r in s.db.runs ==> s.db.runs[r] != Completed)
    && r in Next(c, s, e).db.runs && Next(c, s, e).db.runs[r] == Completed
  }

  lemma ResumeCompletes(c: Config, db: Db, lockFree: bool, pc: Pc, k: Choice, r: RunId)
    requires Handled(pc).Some? && PcOk(c, db, pc)
    requires r in db.runs ==> db.runs[r] != Completed
    ensures var db' := Resume(c, db, lockFree, pc, k).0;
            r in db'.runs && db'.runs[r] == Completed ==> pc == Finish(r, Completed)
  {
    hide MaxAttempt, RunningCount, RetryBelow, CauseOk, RouteTo;
  }

  lemma CompletesAt(c: Config, s: State, e: Event, r: RunId)
    requires RunInv(c, s) && Completes(c, s, e, r)
    ensures e.Act? && e.t in s.tasks && s.tasks[e.t].pc == Finish(r, Completed)
  {
    if e.Act? && e.t in s.tasks {
      CompletesAct(c, s, e.t, e.choice, r);
    } else {
      hide RunInv, ActStep, MaxAttempt;
    }
  }

  lemma CompletesAct(c: Config, s: State, t: nat, k: Choice, r: RunId)
    requires RunInv(c, s) && t in s.tasks && Completes(c, s, Act(t, k), r)
    ensures s.tasks[t].pc == Finish(r, Completed)
  {
    assert TaskOk(c, s.db, s.inFlight, s.tasks[t]);
    hide RunInv, PcOk, OnlyOwnRow;
    if Handled(s.tasks[t].pc).Some? {
      ResumeCompletes(c, s.db, s.lock.None?, s.tasks[t].pc, k, r);
      hide Resume;
    } else {
      ItemShape(c, s, t, k);
      hide NextItem;
    }
  }

  /** In every execution: a run becomes completed only after a driver's verdict on one of its stages whose column
      says so. */
  lemma CompletedOnlyByVerdict(c: Config, s: State, events: seq<Event>, e: Event, r: RunId)
    requires Init(c, s) && Completes(c, Run(c, s, events), e, r)
    ensures SaidComplete(c, s, events, r)
  {
    VoiceAlways(c, s, events);
    var now := Run(c, s, events);
    hide RunInv, SaidComplete, Run, Completes;
    CompletesAt(c, now, e, r);
    assert VoicePc(c, s, events, now.db.rows, now.tasks[e.t].pc);
  }

  // ---------------------------------------------------------------- an execution that completes

  const PASSES := AT_GATE.(rows := [FIRST.(status := RowRunning, started := true)])
  const PASSED := AT_GATE.(rows := [FIRST.(status := RowCompleted, started := true)])

  lemma ReachVerdict()
    ensures Reachable(OneStage(None, Some("__complete__")), Seen(PASSES.(pc := Complete(0, 0, RowCompleted, ThenRoute(Proceed)))))
  {
    var c, v := OneStage(None, Some("__complete__")), PASSES;
    ReachGate(None, Some("__complete__"));
    hide Reachable, Seen;
    assert AT_GATE.rows[0 := PASSES.rows[0]] == PASSES.rows;
    ReachAct(c, AT_GATE, Prep(Ready), AT_GATE.(pc := Start(0, 0)));
    ReachAct(c, AT_GATE.(pc := Start(0, 0)), Go, v.(pc := Exec(0, 0)));
    ReachDriven();
  }

  lemma ReachDriven()
    requires Reachable(OneStage(None, Some("__complete__")), Seen(PASSES.(pc := Exec(0, 0))))
    ensures Reachable(OneStage(None, Some("__complete__")), Seen(PASSES.(pc := Complete(0, 0, RowCompleted, ThenRoute(Proceed)))))
  {
    var c, v := OneStage(None, Some("__complete__")), PASSES;
    hide Reachable, Seen;
    ReachAct(c, v.(pc := Exec(0, 0)), Go, v.(pc := Drive(0, 0)));
    ReachAct(c, v.(pc := Drive(0, 0)), Ran(Said(Proceed)), v.(pc := Check(0, 0, Said(Proceed))));
    ReachAct(c, v.(pc := Check(0, 0, Said(Proceed))), Go, v.(pc := Complete(0, 0, RowCompleted, ThenRoute(Proceed))));
  }

  /** From an empty database: the one stage passes, its onPass says so, and the run ends completed. */
  lemma RunCompletes()
    ensures exists events :: Run(OneStage(None, Some("__complete__")), EMPTY, events).db
                          == Db(map[0 := Completed], [FIRST.(status := RowCompleted, started := true)])
  {
    var c, v, w := OneStage(None, Some("__complete__")), PASSES, PASSED;
    ReachVerdict();
    hide Seen, Reachable;
    assert v.rows[0 := w.rows[0]] == w.rows && map[0 := Running][0 := Completed] == map[0 := Completed];
    ReachAct(c, v.(pc := Complete(0, 0, RowCompleted, ThenRoute(Proceed))), Subject(false), w.(pc := Finish(0, Completed)));
    ReachAct(c, w.(pc := Finish(0, Completed)), Go, w.(pc := Hook(0), status := Completed));
    EndsAs(c, w.(pc := Hook(0), status := Completed));
  }

  lemma EndsAs(c: Config, v: View)
    requires Reachable(c, Seen(v))
    ensures exists events :: Run(c, EMPTY, events).db == Db(map[0 := v.status], v.rows)
  {
    var events :| Run(c, EMPTY, events) == Seen(v);
  }
}

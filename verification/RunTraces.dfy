/**
 Concrete executions from an empty database: an operator triggers run 0, and the daemon is told of it and
 claims it while the trigger call is still between the two statements of its createStageRun.
 */
module RunTraces {
  import opened Wrappers
  import opened PipelineRuns
  import opened RunMachine

  const EMPTY := State(Db(map[], []), {}, map[], None, {}, false, map[], [], {}, false)

  /** One pipeline of one stage, which leads nowhere unless a passing verdict is given a target. */
  function OneStage(retries: Option<int>, onPass: Option<string> := None): Config {
    Config(1, map[0 := Stage("build", retries, false, onPass, None, None)], r => [0], true)
  }

  ghost predicate Reachable(c: Config, s: State) {
    exists events :: Run(c, EMPTY, events) == s
  }

  lemma {:induction false} RunConcat(c: Config, s: State, a: seq<Event>, b: seq<Event>)
    ensures Run(c, s, a + b) == Run(c, Run(c, s, a), b)
    decreases |a|
  {
    if a == [] {
      assert a + b == b;
    } else {
      assert (a + b)[1..] == a[1..] + b;
      RunConcat(c, Next(c, s, a[0]), a[1..], b);
    }
  }

  lemma RunOne(c: Config, s: State, e: Event)
    ensures Run(c, s, [e]) == Next(c, s, e)
  {
    assert Run(c, Next(c, s, e), [e][1..]) == Next(c, s, e);
  }

  lemma Reach(c: Config, s: State, e: Event, s': State)
    requires Reachable(c, s) && Next(c, s, e) == s'
    ensures Reachable(c, s')
  {
    var events :| Run(c, EMPTY, events) == s;
    RunConcat(c, EMPTY, events, [e]);
    RunOne(c, s, e);
    assert Run(c, EMPTY, events + [e]) == s';
  }

  // ---------------------------------------------------------------- the daemon's activation, await by await

  /** Activation 1 handles run 0 and awaits `pc`; the recovery loop of the last start has nothing left. */
  datatype View = View(pc: Pc, status: RunStatus, rows: seq<StageRun>, lock: Option<nat>, claims: seq<RunId>,
                       seeds: map<RunId, SeedPc>, late: set<RunId>, cancelUsed: bool)

  function Seen(v: View): State {
    State(Db(map[0 := v.status], v.rows), {0}, map[0 := Task(ByRecovery, Idle), 1 := Task(ByEvent, v.pc)], v.lock, {}, true,
          v.seeds, v.claims, v.late, v.cancelUsed)
  }

  /** The next await of activation 1. */
  lemma ReachAct(c: Config, v: View, k: Choice, v': View)
    requires Reachable(c, Seen(v)) && Handled(v.pc) == Some(0)
    requires Resume(c, Db(map[0 := v.status], v.rows), v.lock.None?, v.pc, k) == (Db(map[0 := v'.status], v'.rows), At(v'.pc))
    requires v'.lock == LockAfter(v.lock, 1, v.pc, At(v'.pc))
    requires v'.claims == (if v.pc.Commit? then v.claims + [0] else v.claims)
    requires v'.seeds == v.seeds && v'.late == v.late && v'.cancelUsed == v.cancelUsed
    ensures Reachable(c, Seen(v'))
  {
    hide Resume, Reachable;
    assert Seen(v).tasks[1 := Task(ByEvent, v'.pc)] == Seen(v').tasks;
    assert Next(c, Seen(v), Act(1, k)) == Seen(v');
    Reach(c, Seen(v), Act(1, k), Seen(v'));
  }

  /** The trigger call has read the maximum for its seed row. */
  const AT_START := View(GetRun(0), Pending, [], None, [], map[0 := SeedInsert(0, 0)], {}, false)
  const CLAIMED := AT_START.(pc := GetStageRuns(0), status := Running, claims := [0])

  const FIRST := StageRun(0, 0, 1, RowPending, Entry, false)
  const AT_GATE := CLAIMED.(pc := Gate(0, 0), rows := [FIRST])

  lemma ReachStart(m: Option<int>, onPass: Option<string> := None)
    ensures Reachable(OneStage(m, onPass), Seen(AT_START))
  {
    assert Run(OneStage(m, onPass), EMPTY, [Trigger(0, 0), TriggerRead(0), Boot(0), Deliver(1, 0)]) == Seen(AT_START);
  }

  const AT_SNAPSHOT := AT_START.(pc := Snapshot(0), lock := Some(1))

  lemma ReachSnapshot(m: Option<int>, onPass: Option<string> := None)
    ensures Reachable(OneStage(m, onPass), Seen(AT_SNAPSHOT))
  {
    hide Reachable, Seen, RunningCount;
    var c, v := OneStage(m, onPass), AT_START;
    ReachStart(m, onPass);
    ReachAct(c, v, Go, v.(pc := GetStages(0)));
    ReachAct(c, v.(pc := GetStages(0)), Go, v.(pc := Lock(0)));
    ReachAct(c, v.(pc := Lock(0)), Go, AT_SNAPSHOT);
  }

  lemma ReachClaimed(m: Option<int>, onPass: Option<string> := None)
    ensures Reachable(OneStage(m, onPass), Seen(CLAIMED))
  {
    hide Reachable, Seen;
    var c, v := OneStage(m, onPass), AT_SNAPSHOT;
    ReachSnapshot(m, onPass);
    assert RunningRuns(map[0 := Pending]) == {};
    ReachAct(c, v, Go, v.(pc := Write(0, 0)));
    hide RunningCount;
    ReachAct(c, v.(pc := Write(0, 0)), Go, v.(pc := Commit(0)));
    assert map[0 := Pending][0 := Running] == map[0 := Running];
    ReachAct(c, v.(pc := Commit(0)), Go, CLAIMED);
  }

  lemma ReachGate(m: Option<int>, onPass: Option<string> := None)
    ensures Reachable(OneStage(m, onPass), Seen(AT_GATE))
  {
    hide Reachable, Seen;
    var c, v := OneStage(m, onPass), CLAIMED;
    ReachClaimed(m, onPass);
    assert FirstPending([], 0) == None && MaxAttempt([], 0, 0) == 0;
    assert c.pipeline(0) == [0] && [] + [FIRST] == [FIRST];
    ReachAct(c, v, Go, v.(pc := ReadMax(0, 0, Entry)));
    ReachAct(c, v.(pc := ReadMax(0, 0, Entry)), Go, v.(pc := Insert(0, 0, 0, Entry)));
    ReachAct(c, v.(pc := Insert(0, 0, 0, Entry)), Go, AT_GATE);
  }

  // ---------------------------------------------------------------- the seed row comes late

  /** The trigger call inserts after all: two rows of the stage carry attempt 1. */
  const SECOND := FIRST.(cause := Seed)
  const LATE := AT_GATE.(rows := [FIRST, SECOND], seeds := map[], late := {0})

  lemma ReachLate(m: Option<int>)
    ensures Reachable(OneStage(m), Seen(LATE))
  {
    var c := OneStage(m);
    ReachGate(m);
    assert Next(c, Seen(AT_GATE), TriggerInsert(0)).seeds == map[];
    assert Next(c, Seen(AT_GATE), TriggerInsert(0)) == Seen(LATE);
    hide Next, Reachable;
    Reach(c, Seen(AT_GATE), TriggerInsert(0), Seen(LATE));
  }

  /** With one retry allowed, the first row fails and is relaunched as a third row of the stage. */
  const FAILED := FIRST.(status := RowFailed)
  const THIRD := StageRun(0, 0, 2, RowPending, Retry(1), false)

  const RETRYING := LATE.(pc := ReadMax(0, 0, Retry(1)), rows := [FAILED, SECOND])

  lemma ReachRetry()
    ensures Reachable(OneStage(Some(1)), Seen(RETRYING))
  {
    hide Reachable, Seen;
    var c, v := OneStage(Some(1)), LATE.(pc := Complete(0, 0, RowFailed, ThenRetry));
    ReachLate(Some(1));
    assert MayRetry(c, 0, 1) && LATE.rows[0 := FAILED] == RETRYING.rows;
    ReachAct(c, LATE, Prep(AcquireFails), v);
    ReachAct(c, v, Go, RETRYING);
  }

  lemma ReachThird()
    ensures Reachable(OneStage(Some(1)), Seen(LATE.(pc := Gate(0, 2), rows := [FAILED, SECOND, THIRD])))
  {
    hide Reachable, Seen, MaxAttempt;
    var c, v := OneStage(Some(1)), RETRYING.(pc := Insert(0, 0, 1, Retry(1)));
    ReachRetry();
    MaxIsOne();
    assert RETRYING.rows + [THIRD] == [FAILED, SECOND, THIRD];
    ReachAct(c, RETRYING, Go, v);
    ReachAct(c, v, Go, LATE.(pc := Gate(0, 2), rows := [FAILED, SECOND, THIRD]));
  }

  lemma MaxIsOne()
    ensures MaxAttempt([FAILED, SECOND], 0, 0) == 1
  {
    var rows := [FAILED, SECOND];
    assert rows[..1] == [FAILED] && rows[..1][..0] == [];
    assert MaxAttempt([], 0, 0) == 0;
    assert MaxAttempt(rows[..1], 0, 0) == 1;
  }
}

/**
 The issue watcher's dispatch, with each awaited read as its own step, under any number of
 realtime handlers and startup sweeps, with runs changing status and the daemon crashing in
 between.
 */
module IssueWatcher {
  import opened Wrappers
  import opened PipelineRuns

  type IssueId = nat

  datatype WatchedRun = WatchedRun(issue: IssueId, status: RunStatus)

  /** The awaits of one dispatch, in order. The first three reads look at the issue, its project
      and its status; any of them may end the dispatch. */
  datatype Await = Over | Idle | ReadIssue(i: IssueId) | ReadProject(i: IssueId) | ReadStatus(i: IssueId)
                 | ReadRuns(i: IssueId) | InsertRun(i: IssueId)

  /** `sweep` holds the issues a startup sweep has still to hand over; empty for an event. */
  datatype Watch = Watch(at: Await, sweep: seq<IssueId>)

  datatype State = State(runs: seq<WatchedRun>, inFlight: set<IssueId>, tasks: map<nat, Watch>)

  datatype Event =
    | Deliver(t: nat, i: IssueId)
    | Sweep(t: nat, queue: seq<IssueId>)
    | Act(t: nat, pass: bool)
    | Throw(t: nat)
    | Crash
    | SetStatus(j: nat, status: RunStatus)

  predicate Active(run: WatchedRun) {
    run.status !in TERMINAL
  }

  predicate HasActive(runs: seq<WatchedRun>, i: IssueId) {
    exists j :: 0 <= j < |runs| && runs[j].issue == i && Active(runs[j])
  }

  function Handled(at: Await): Option<IssueId> {
    if at.Over? || at.Idle? then None else Some(at.i)
  }

  /** The await after `at`, or `Idle` when dispatch returns. `pass`: the guard just read lets it go on. */
  function After(runs: seq<WatchedRun>, at: Await, pass: bool): Await {
    match at
    case ReadIssue(i) => if pass then ReadProject(i) else Idle
    case ReadProject(i) => if pass then ReadStatus(i) else Idle
    case ReadStatus(i) => if pass then ReadRuns(i) else Idle
    case ReadRuns(i) => if HasActive(runs, i) then Idle else InsertRun(i)
    case _ => Idle
  }

  /** A handler that returns is over; a sweep goes on with its next issue, unless that one is
      being dispatched already. */
  function NextWatch(s: State, w: Watch, pass: bool): Watch {
    if w.at.Over? then w
    else if !w.at.Idle? then w.(at := After(s.runs, w.at, pass))
    else if w.sweep == [] then Watch(Over, [])
    else Watch(if w.sweep[0] in s.inFlight then Idle else ReadIssue(w.sweep[0]), w.sweep[1..])
  }

  function Step(s: State, t: nat, pass: bool): State
    requires t in s.tasks
  {
    var w := s.tasks[t];
    var next := NextWatch(s, w, pass);
    var inside := Handled(w.at).Some?;
    s.(runs := if w.at.InsertRun? then s.runs + [WatchedRun(w.at.i, Pending)] else s.runs,
       inFlight := if inside && next.at.Idle? then s.inFlight - {w.at.i}
                   else if w.at.Idle? && w.sweep != [] then s.inFlight + {w.sweep[0]} else s.inFlight,
       tasks := s.tasks[t := next])
  }

  /** `SetStatus` is everything the rest of the system does to runs, the executor's unconditional final write
      included, which can take a cancelled run back to blocked. */
  function Next(s: State, e: Event): State {
    match e
    case Deliver(t, i) =>
      if t in s.tasks || i in s.inFlight then s
      else s.(inFlight := s.inFlight + {i}, tasks := s.tasks[t := Watch(ReadIssue(i), [])])
    case Sweep(t, queue) => if t in s.tasks then s else s.(tasks := s.tasks[t := Watch(Idle, queue)])
    case Act(t, pass) => if t in s.tasks then Step(s, t, pass) else s
    case Throw(t) =>
      if t !in s.tasks then s
      else
        var i := Handled(s.tasks[t].at);
        s.(inFlight := if i.Some? then s.inFlight - {i.value} else s.inFlight,
           tasks := s.tasks[t := Watch(Over, [])])
    case Crash => s.(inFlight := {}, tasks := map[])
    case SetStatus(j, status) =>
      if j < |s.runs| then s.(runs := s.runs[j := s.runs[j].(status := status)]) else s
  }

  function Run(s: State, events: seq<Event>): State
    decreases |events|
  {
    if events == [] then s else Run(Next(s, events[0]), events[1..])
  }

  // ---------------------------------------------------------------- at most one active run

  ghost predicate OneActive(runs: seq<WatchedRun>) {
    forall j, k | 0 <= j < k < |runs| && runs[j].issue == runs[k].issue :: !(Active(runs[j]) && Active(runs[k]))
  }

  ghost predicate TaskOk(s: State, w: Watch) {
    && (Handled(w.at).Some? ==> w.at.i in s.inFlight)
    && (w.at.InsertRun? ==> !HasActive(s.runs, w.at.i))
  }

  /** The inFlight set keeps dispatches of one issue apart, so what a dispatch read about the
      issue's runs still holds when it inserts. */
  ghost predicate Inv(s: State) {
    && OneActive(s.runs)
    && (forall t :: t in s.tasks ==> TaskOk(s, s.tasks[t]))
    && (forall t, u :: t in s.tasks && u in s.tasks && t != u && Handled(s.tasks[t].at).Some? ==>
          Handled(s.tasks[t].at) != Handled(s.tasks[u].at))
  }

  lemma AppendActive(runs: seq<WatchedRun>, run: WatchedRun, i: IssueId)
    ensures HasActive(runs + [run], i) <==> HasActive(runs, i) || (run.issue == i && Active(run))
  {
    var runs' := runs + [run];
    assert forall j | 0 <= j < |runs| :: runs'[j] == runs[j];
    assert runs'[|runs|] == run;
  }

  lemma InsertKeeps(s: State, t: nat, pass: bool)
    requires Inv(s) && t in s.tasks && s.tasks[t].at.InsertRun?
    ensures Inv(Step(s, t, pass))
  {
    var run := WatchedRun(s.tasks[t].at.i, Pending);
    assert TaskOk(s, s.tasks[t]);
    forall u | u in s.tasks && u != t && s.tasks[u].at.InsertRun?
      ensures !HasActive(s.runs + [run], s.tasks[u].at.i)
    {
      assert TaskOk(s, s.tasks[u]);
      AppendActive(s.runs, run, s.tasks[u].at.i);
    }
    InsertUnique(s.runs, run);
    hide OneActive, HasActive;
  }

  lemma InsertUnique(runs: seq<WatchedRun>, run: WatchedRun)
    requires OneActive(runs) && !HasActive(runs, run.issue)
    ensures OneActive(runs + [run])
  {
  }

  lemma ActKeeps(s: State, t: nat, pass: bool)
    requires Inv(s) && t in s.tasks && !s.tasks[t].at.InsertRun?
    ensures Inv(Step(s, t, pass))
  {
    hide OneActive, HasActive;
    assert TaskOk(s, s.tasks[t]);
  }

  /** The step takes a terminal run back to a status that is not. */
  predicate Revives(s: State, e: Event) {
    e.SetStatus? && e.j < |s.runs| && !Active(s.runs[e.j]) && e.status !in TERMINAL
  }

  /** It does so while its issue has another active run, or a dispatch that is about to insert one. */
  predicate RevivesBeside(s: State, e: Event) {
    && Revives(s, e)
    && (HasActive(s.runs, s.runs[e.j].issue) || exists t :: t in s.tasks && s.tasks[t].at == InsertRun(s.runs[e.j].issue))
  }

  lemma WriteActive(runs: seq<WatchedRun>, j: nat, status: RunStatus, i: IssueId)
    requires j < |runs| && HasActive(runs[j := runs[j].(status := status)], i)
    ensures HasActive(runs, i) || (runs[j].issue == i && !Active(runs[j]) && status !in TERMINAL)
  {
    var runs' := runs[j := runs[j].(status := status)];
    var k :| 0 <= k < |runs'| && runs'[k].issue == i && Active(runs'[k]);
    assert k != j ==> runs[k] == runs'[k];
  }

  lemma StatusKeeps(s: State, j: nat, status: RunStatus)
    requires Inv(s) && !RevivesBeside(s, SetStatus(j, status))
    ensures Inv(Next(s, SetStatus(j, status)))
  {
    if j < |s.runs| {
      var s' := Next(s, SetStatus(j, status));
      forall i | HasActive(s'.runs, i)
        ensures HasActive(s.runs, i) || (s.runs[j].issue == i && Revives(s, SetStatus(j, status)))
      {
        WriteActive(s.runs, j, status, i);
      }
      StatusUnique(s, j, status);
      hide HasActive, OneActive;
    }
  }

  lemma StatusUnique(s: State, j: nat, status: RunStatus)
    requires OneActive(s.runs) && !RevivesBeside(s, SetStatus(j, status)) && j < |s.runs|
    ensures OneActive(s.runs[j := s.runs[j].(status := status)])
  {
    var runs' := s.runs[j := s.runs[j].(status := status)];
    forall k, l | 0 <= k < l < |runs'| && runs'[k].issue == runs'[l].issue
      ensures !(Active(runs'[k]) && Active(runs'[l]))
    {
      var other := if k == j then l else k;
      if other != j && Active(s.runs[other]) && s.runs[other].issue == s.runs[j].issue {
        assert HasActive(s.runs, s.runs[j].issue);
      }
    }
  }

  lemma InvStep(s: State, e: Event)
    requires Inv(s) && !RevivesBeside(s, e)
    ensures Inv(Next(s, e))
  {
    hide OneActive, HasActive, Step;
    match e
    case Act(t, pass) =>
      if t in s.tasks {
        hide Inv;
        if s.tasks[t].at.InsertRun? { InsertKeeps(s, t, pass); } else { ActKeeps(s, t, pass); }
      }
    case SetStatus(j, status) => hide Inv; StatusKeeps(s, j, status);
    case _ =>
  }

  /** Some step of the execution revives a run beside another. */
  predicate SomeBeside(s: State, events: seq<Event>)
    decreases |events|
  {
    events != [] && (RevivesBeside(s, events[0]) || SomeBeside(Next(s, events[0]), events[1..]))
  }

  lemma {:induction false} InvAlways(s: State, events: seq<Event>)
    requires Inv(s) && !SomeBeside(s, events)
    ensures Inv(Run(s, events))
    decreases |events|
  {
    if events != [] {
      hide Inv, RevivesBeside, Next;
      InvStep(s, events[0]);
      InvAlways(Next(s, events[0]), events[1..]);
    }
  }

  /** Handlers and sweeps, however interleaved and crashed, never give an issue two non-terminal runs (a blocked
      run counts as one), unless a terminal run is revived beside another. */
  lemma OneRunPerIssue(runs: seq<WatchedRun>, events: seq<Event>)
    requires OneActive(runs) && !SomeBeside(State(runs, {}, map[]), events)
    ensures OneActive(Run(State(runs, {}, map[]), events).runs)
  {
    InvAlways(State(runs, {}, map[]), events);
  }

  // ---------------------------------------------------------------- exactly when

  predicate SomeRevived(s: State, events: seq<Event>)
    decreases |events|
  {
    events != [] && (Revives(s, events[0]) || SomeRevived(Next(s, events[0]), events[1..]))
  }

  /** As long as no run is revived any more, no issue can come to have two active runs. */
  ghost predicate Safe(s: State) {
    forall events | !SomeRevived(s, events) :: OneActive(Run(s, events).runs)
  }

  /** Every state that the execution passes through is safe. */
  ghost predicate SafeThroughout(s: State, events: seq<Event>)
    decreases |events|
  {
    Safe(s) && (events == [] || SafeThroughout(Next(s, events[0]), events[1..]))
  }

  lemma {:induction false} NoneRevivedNoneBeside(s: State, events: seq<Event>)
    requires !SomeRevived(s, events)
    ensures !SomeBeside(s, events)
    decreases |events|
  {
    if events != [] {
      hide Next, HasActive;
      NoneRevivedNoneBeside(Next(s, events[0]), events[1..]);
    }
  }

  lemma InvIsSafe(s: State)
    requires Inv(s)
    ensures Safe(s)
  {
    forall events | !SomeRevived(s, events)
      ensures OneActive(Run(s, events).runs)
    {
      NoneRevivedNoneBeside(s, events);
      InvAlways(s, events);
    }
  }

  /** Two active runs at once, or a dispatch that is about to add the second. */
  lemma BesideIsUnsafe(s: State, e: Event)
    requires RevivesBeside(s, e)
    ensures !Safe(Next(s, e))
  {
    var j, s' := e.j, Next(s, e);
    var i := s.runs[j].issue;
    assert s'.runs[j].issue == i && Active(s'.runs[j]);
    if HasActive(s.runs, i) {
      var k :| 0 <= k < |s.runs| && s.runs[k].issue == i && Active(s.runs[k]);
      assert k != j && s'.runs[k] == s.runs[k];
      assert !OneActive(s'.runs);
      assert Run(s', []) == s' && !SomeRevived(s', []);
    } else {
      var t :| t in s.tasks && s.tasks[t].at == InsertRun(i);
      InsertBeside(s', t, j);
    }
  }

  lemma InsertBeside(s: State, t: nat, j: nat)
    requires j < |s.runs| && Active(s.runs[j]) && t in s.tasks && s.tasks[t].at == InsertRun(s.runs[j].issue)
    ensures !Safe(s)
  {
    var events := [Act(t, true)];
    var s' := Next(s, events[0]);
    assert events[1..] == [] && Run(s', []) == s';
    assert Run(s, events) == s' && !SomeRevived(s, events);
    assert s'.runs == s.runs + [WatchedRun(s.runs[j].issue, Pending)];
    assert s'.runs[j] == s.runs[j] && Active(s'.runs[|s.runs|]);
    assert !OneActive(s'.runs);
  }

  lemma {:induction false} SafeIffKept(s: State, events: seq<Event>)
    requires Inv(s)
    ensures SafeThroughout(s, events) <==> !SomeBeside(s, events)
    decreases |events|
  {
    InvIsSafe(s);
    if events != [] {
      hide Inv, RevivesBeside, Next, Safe;
      if RevivesBeside(s, events[0]) {
        BesideIsUnsafe(s, events[0]);
      } else {
        InvStep(s, events[0]);
        SafeIffKept(Next(s, events[0]), events[1..]);
      }
    }
  }

  /** Every state of an execution is safe from two active runs of an issue if and only if no step of it revives
      a terminal run while its issue has another active run or a dispatch about to insert one. */
  lemma OneRunPerIssueIff(runs: seq<WatchedRun>, events: seq<Event>)
    requires OneActive(runs)
    ensures SafeThroughout(State(runs, {}, map[]), events) <==> !SomeBeside(State(runs, {}, map[]), events)
  {
    SafeIffKept(State(runs, {}, map[]), events);
  }

  // ---------------------------------------------------------------- nothing stays in flight

  ghost predicate Dispatching(s: State, i: IssueId) {
    exists t :: t in s.tasks && Handled(s.tasks[t].at) == Some(i)
  }

  /** Every issue in the set is being dispatched. */
  ghost predicate NoLeak(s: State) {
    forall i | i in s.inFlight :: Dispatching(s, i)
  }

  lemma NoLeakStep(s: State, e: Event)
    requires NoLeak(s)
    ensures NoLeak(Next(s, e))
  {
    var s' := Next(s, e);
    forall i | i in s'.inFlight
      ensures Dispatching(s', i)
    {
      if i in s.inFlight {
        var t :| t in s.tasks && Handled(s.tasks[t].at) == Some(i);
        assert Handled(s'.tasks[t].at) == Some(i);
      } else {
        assert Handled(s'.tasks[e.t].at) == Some(i);
      }
    }
  }

  /** Nothing is left behind in the set when a dispatch returns, throws or is killed: an issue that nobody
      dispatches can be dispatched. */
  lemma {:induction false} NoLeakAlways(s: State, events: seq<Event>)
    requires NoLeak(s)
    ensures NoLeak(Run(s, events))
    decreases |events|
  {
    if events != [] {
      hide NoLeak, Next;
      NoLeakStep(s, events[0]);
      NoLeakAlways(Next(s, events[0]), events[1..]);
    }
  }

  // ---------------------------------------------------------------- two active runs of one issue

  function Handling(t: nat): seq<Event> {
    [Deliver(t, 0)] + ([Act(t, true)] + ([Act(t, true)] + ([Act(t, true)] + ([Act(t, true)] + ([Act(t, true)] + [])))))
  }

  lemma RunCons(s: State, e: Event, rest: seq<Event>)
    ensures Run(s, [e] + rest) == Run(Next(s, e), rest)
  {
    assert ([e] + rest)[1..] == rest;
  }

  lemma {:induction false} RunConcat(s: State, a: seq<Event>, b: seq<Event>)
    ensures Run(s, a + b) == Run(Run(s, a), b)
    decreases |a|
  {
    if a == [] {
      assert a + b == b;
    } else {
      assert (a + b)[1..] == a[1..] + b;
      RunConcat(Next(s, a[0]), a[1..], b);
    }
  }

  /** A handler that is told of issue 0 and meets no guard adds a run. */
  lemma Dispatched(runs: seq<WatchedRun>, tasks: map<nat, Watch>, t: nat)
    requires t !in tasks && !HasActive(runs, 0)
    ensures Run(State(runs, {}, tasks), Handling(t)) == State(runs + [WatchedRun(0, Pending)], {}, tasks[t := Watch(Idle, [])])
  {
    hide HasActive;
    var s0 := State(runs, {}, tasks);
    var s1 := State(runs, {0}, tasks[t := Watch(ReadIssue(0), [])]);
    var s2 := State(runs, {0}, tasks[t := Watch(ReadProject(0), [])]);
    var s3 := State(runs, {0}, tasks[t := Watch(ReadStatus(0), [])]);
    var s4 := State(runs, {0}, tasks[t := Watch(ReadRuns(0), [])]);
    var s5 := State(runs, {0}, tasks[t := Watch(InsertRun(0), [])]);
    var s6 := State(runs + [WatchedRun(0, Pending)], {}, tasks[t := Watch(Idle, [])]);
    assert Next(s0, Deliver(t, 0)) == s1;
    assert Next(s1, Act(t, true)) == s2 && Next(s2, Act(t, true)) == s3 && Next(s3, Act(t, true)) == s4;
    assert Next(s4, Act(t, true)) == s5 && Next(s5, Act(t, true)) == s6;
    hide Next;
    var act := Act(t, true);
    RunCons(s5, act, []);
    RunCons(s4, act, [act] + []);
    RunCons(s3, act, [act] + ([act] + []));
    RunCons(s2, act, [act] + ([act] + ([act] + [])));
    RunCons(s1, act, [act] + ([act] + ([act] + ([act] + []))));
    RunCons(s0, Deliver(t, 0), [act] + ([act] + ([act] + ([act] + ([act] + [])))));
  }

  const FIRST_CANCELLED := State([WatchedRun(0, Cancelled)], {}, map[0 := Watch(Idle, [])])

  lemma AddedAndCancelled()
    ensures Run(State([], {}, map[]), Handling(0) + [SetStatus(0, Cancelled)]) == FIRST_CANCELLED
  {
    var s1 := State([WatchedRun(0, Pending)], {}, map[0 := Watch(Idle, [])]);
    Dispatched([], map[], 0);
    assert [] + [WatchedRun(0, Pending)] == s1.runs;
    assert Next(s1, SetStatus(0, Cancelled)) == FIRST_CANCELLED;
    hide Next, Handling;
    RunConcat(State([], {}, map[]), Handling(0), [SetStatus(0, Cancelled)]);
    RunCons(s1, SetStatus(0, Cancelled), []);
    assert [SetStatus(0, Cancelled)] + [] == [SetStatus(0, Cancelled)];
  }

  lemma AddedAndRevived()
    ensures Run(FIRST_CANCELLED, Handling(1) + [SetStatus(0, Blocked)]).runs == [WatchedRun(0, Blocked), WatchedRun(0, Pending)]
  {
    var runs := [WatchedRun(0, Cancelled), WatchedRun(0, Pending)];
    var s3 := State(runs, {}, FIRST_CANCELLED.tasks[1 := Watch(Idle, [])]);
    Dispatched(FIRST_CANCELLED.runs, FIRST_CANCELLED.tasks, 1);
    assert FIRST_CANCELLED.runs + [WatchedRun(0, Pending)] == runs;
    assert Next(s3, SetStatus(0, Blocked)).runs == [WatchedRun(0, Blocked), WatchedRun(0, Pending)];
    hide Next, Handling;
    RunConcat(FIRST_CANCELLED, Handling(1), [SetStatus(0, Blocked)]);
    RunCons(s3, SetStatus(0, Blocked), []);
    assert [SetStatus(0, Blocked)] + [] == [SetStatus(0, Blocked)];
  }

  /** An execution from no runs at all: the run of an issue is cancelled, the watcher adds another, and the
      first one's executor then writes its verdict over the cancellation. */
  lemma RevivedBesideAnother()
    ensures exists events ::
              Run(State([], {}, map[]), events).runs == [WatchedRun(0, Blocked), WatchedRun(0, Pending)]
    ensures !OneActive([WatchedRun(0, Blocked), WatchedRun(0, Pending)])
  {
    hide Next, Handling, Run;
    AddedAndCancelled();
    AddedAndRevived();
    RunConcat(State([], {}, map[]), Handling(0) + [SetStatus(0, Cancelled)], Handling(1) + [SetStatus(0, Blocked)]);
    var runs := [WatchedRun(0, Blocked), WatchedRun(0, Pending)];
    assert runs[0].issue == runs[1].issue && Active(runs[0]) && Active(runs[1]);
  }

  // ---------------------------------------------------------------- one handler at a time

  datatype Issue = Issue(project: nat, status: nat, closed: bool)

  datatype ConfigError = NoOpenStatus(project: nat)

  class Watcher {
    /** Projects with a default pipeline, and the status that counts as open in each project. */
    const enabled: set<nat>
    const openStatus: map<nat, nat>
    var issues: map<IssueId, Issue>
    var runs: seq<WatchedRun>
    var inFlight: set<IssueId>

    constructor (enabled: set<nat>, openStatus: map<nat, nat>, issues: map<IssueId, Issue>, runs: seq<WatchedRun>)
      ensures this.enabled == enabled && this.openStatus == openStatus && this.issues == issues && this.runs == runs
      ensures inFlight == {}
    {
      this.enabled, this.openStatus, this.issues, this.runs, inFlight := enabled, openStatus, issues, runs, {};
    }

    /** Open, in a project that dispatches. */
    predicate Watched(i: IssueId)
      reads this
    {
      i in issues && !issues[i].closed && issues[i].project in enabled
    }

    /** Watched, in a project that has no open status. */
    predicate Misconfigured(i: IssueId)
      reads this
    {
      Watched(i) && issues[i].project !in openStatus
    }

    /** Watched, and in its project's open status. */
    predicate Due(i: IssueId)
      reads this
    {
      Watched(i) && issues[i].project in openStatus && issues[i].status == openStatus[issues[i].project]
    }

    /** Adds the one run that a due issue without an active run is owed. */
    method HandleIssueEvent(i: IssueId) returns (r: Result<(), ConfigError>)
      requires OneActive(runs)
      modifies this`runs, this`inFlight
      ensures inFlight == old(inFlight) && OneActive(runs)
      ensures r.Err? <==> i !in inFlight && Watched(i) && issues[i].project !in openStatus
      ensures r.Err? ==> r.error == NoOpenStatus(issues[i].project)
      ensures runs == if i !in inFlight && Due(i) && !HasActive(old(runs), i) then old(runs) + [WatchedRun(i, Pending)]
                      else old(runs)
      ensures runs != old(runs) <==>
        && i !in inFlight && i in issues && !issues[i].closed && issues[i].project in enabled
        && issues[i].project in openStatus && issues[i].status == openStatus[issues[i].project]
        && forall j | 0 <= j < |old(runs)| && old(runs)[j].issue == i ::
             old(runs)[j].status in {Completed, Failed, TimedOut, Cancelled}
    {
      if i in inFlight {
        return Ok(());
      }
      inFlight := inFlight + {i};
      r := Dispatch(i);
      inFlight := inFlight - {i};
    }

    method Dispatch(i: IssueId) returns (r: Result<(), ConfigError>)
      requires OneActive(runs)
      modifies this`runs
      ensures OneActive(runs)
      ensures r.Err? <==> Watched(i) && issues[i].project !in openStatus
      ensures r.Err? ==> r.error == NoOpenStatus(issues[i].project)
      ensures runs == if Due(i) && !HasActive(old(runs), i) then old(runs) + [WatchedRun(i, Pending)] else old(runs)
    {
      if i !in issues || issues[i].closed || issues[i].project !in enabled {
        return Ok(());
      }
      var project := issues[i].project;
      if project !in openStatus {
        return Err(NoOpenStatus(project));
      }
      if issues[i].status != openStatus[project] || HasActive(runs, i) {
        return Ok(());
      }
      InsertUnique(runs, WatchedRun(i, Pending));
      runs := runs + [WatchedRun(i, Pending)];
      return Ok(());
    }

    /** `open` lists the open issues. Unless a project is misconfigured, every due issue then has exactly
        one active run, whether it had one before or not. */
    method StartupSweep(open: seq<IssueId>) returns (r: Result<(), ConfigError>)
      requires OneActive(runs) && inFlight == {}
      modifies this`runs, this`inFlight
      ensures inFlight == {} && OneActive(runs)
      ensures old(runs) <= runs
      ensures forall j | |old(runs)| <= j < |runs| ::
                runs[j].status == Pending && runs[j].issue in open && Due(runs[j].issue) && !HasActive(old(runs), runs[j].issue)
      ensures r.Ok? ==> forall i | i in open && Due(i) :: HasActive(runs, i)
      ensures r.Err? <==> exists i :: i in open && Misconfigured(i) && !HasActive(old(runs), i)
    {
      ghost var before := runs;
      var blocked := set j | 0 <= j < |runs| && Active(runs[j]) :: runs[j].issue;
      for k := 0 to |open|
        invariant inFlight == {} && OneActive(runs) && before <= runs
        invariant forall j | |before| <= j < |runs| ::
                    runs[j].status == Pending && runs[j].issue in open && Due(runs[j].issue) && !HasActive(before, runs[j].issue)
        invariant forall i | i in open[..k] && Due(i) :: HasActive(runs, i)
        invariant forall i | i in open[..k] && Misconfigured(i) :: HasActive(before, i)
      {
        var i := open[k];
        assert i in blocked <==> HasActive(before, i);
        ghost var last := runs;
        Extended(before, last, i);
        if i !in blocked {
          r := HandleIssueEvent(i);
          if r.Err? {
            return;
          }
          assert Due(i) && !HasActive(last, i) ==> runs[|last|] == WatchedRun(i, Pending);
        }
        forall q | q in open[..k + 1] && Due(q)
          ensures HasActive(runs, q)
        {
          Extended(last, runs, q);
        }
      }
      return Ok(());
    }
  }

  lemma Extended(a: seq<WatchedRun>, b: seq<WatchedRun>, i: IssueId)
    requires a <= b
    ensures HasActive(a, i) ==> HasActive(b, i)
  {
    if HasActive(a, i) {
      var j :| 0 <= j < |a| && a[j].issue == i && Active(a[j]);
      assert b[j] == a[j];
    }
  }
}

/** What the stage_run rows of a run add up to: attempts, relaunches and claims. */
module RunBudget {
  import opened Wrappers
  import opened PipelineRuns
  import opened RunMachine
  import opened RunSlots
  import opened RunInvariant

  // ---------------------------------------------------------------- retry budget

  /** Relaunches of a stage made because an attempt failed, in normal operation or in recovery. */
  function Relaunches(rows: seq<StageRun>, r: RunId, stage: StageId): nat {
    if rows == [] then 0
    else
      Relaunches(rows[..|rows| - 1], r, stage) + if IsRetry(rows[|rows| - 1], r, stage) then 1 else 0
  }

  lemma {:induction false} RelaunchesBelow(rows: seq<StageRun>, r: RunId, stage: StageId, bound: nat)
    requires forall i | 0 <= i < |rows| && IsRetry(rows[i], r, stage) :: 1 <= rows[i].cause.failed <= bound
    requires forall i, j | 0 <= i < j < |rows| && IsRetry(rows[i], r, stage) && IsRetry(rows[j], r, stage) ::
               rows[i].cause.failed < rows[j].cause.failed
    ensures Relaunches(rows, r, stage) <= bound
    decreases |rows|
  {
    if rows != [] {
      var init, last := rows[..|rows| - 1], rows[|rows| - 1];
      if IsRetry(last, r, stage) {
        RelaunchesBelow(init, r, stage, last.cause.failed - 1);
      } else {
        RelaunchesBelow(init, r, stage, bound);
      }
    }
  }

  /** In every reachable state, with cancellations, crashes and rework routes, a stage of a run
      has been relaunched after failures at most `maxRetries` times. */
  lemma RetryBudget(c: Config, s: State, events: seq<Event>, r: RunId, stage: StageId)
    requires Init(c, s)
    ensures Relaunches(Run(c, s, events).db.rows, r, stage) <= if MaxRetries(c, stage) < 0 then 0 else MaxRetries(c, stage)
  {
    InitInv(c, s);
    InvAlways(c, s, events);
    var db := Run(c, s, events).db;
    assert DataOk(c, db);
    forall i | 0 <= i < |db.rows| && IsRetry(db.rows[i], r, stage)
      ensures 1 <= db.rows[i].cause.failed <= MaxRetries(c, stage)
    {
      assert RowOk(c, db, db.rows[i]);
    }
    RelaunchesBelow(db.rows, r, stage, if MaxRetries(c, stage) < 0 then 0 else MaxRetries(c, stage));
  }

  // ---------------------------------------------------------------- one claim per run

  ghost predicate ClaimInv(s: State) {
    && (forall i, j | 0 <= i < j < |s.claims| :: s.claims[i] != s.claims[j])
    && (forall r :: r in s.claims ==> r in s.db.runs && s.db.runs[r] != Pending)
  }

  /** No step makes a run pending again. */
  ghost predicate NeverPending(db: Db, db': Db) {
    forall r | r in db.runs && db.runs[r] != Pending :: r in db'.runs && db'.runs[r] != Pending
  }

  lemma ResumeNeverPending(c: Config, db: Db, lockFree: bool, pc: Pc, k: Choice)
    requires Handled(pc).Some? && PcOk(c, db, pc)
    ensures NeverPending(db, Resume(c, db, lockFree, pc, k).0)
  {
  }

  lemma ClaimStep(c: Config, s: State, e: Event)
    requires RunInv(c, s) && ClaimInv(s)
    ensures ClaimInv(Next(c, s, e))
  {
    match e
    case Act(t, k) =>
      if t in s.tasks {
        assert TaskOk(c, s.db, s.inFlight, s.tasks[t]);
        if Handled(s.tasks[t].pc).Some? {
          ClaimAct(c, s, t, k);
        }
      }
    case _ =>
  }

  lemma ClaimAct(c: Config, s: State, t: nat, k: Choice)
    requires ClaimInv(s) && t in s.tasks && TaskOk(c, s.db, s.inFlight, s.tasks[t]) && Handled(s.tasks[t].pc).Some?
    ensures ClaimInv(ActStep(c, s, t, k))
  {
    var pc := s.tasks[t].pc;
    ResumeNeverPending(c, s.db, s.lock.None?, pc, k);
    if pc.Commit? {
      assert pc.r !in s.claims;
    } else {
      hide Resume;
    }
  }

  lemma {:induction false} ClaimKept(c: Config, s: State, events: seq<Event>)
    requires RunInv(c, s) && ClaimInv(s)
    ensures ClaimInv(Run(c, s, events))
    decreases |events|
  {
    if events != [] {
      hide RunInv, ClaimInv, Next;
      InvStep(c, s, events[0]);
      ClaimStep(c, s, events[0]);
      ClaimKept(c, Next(c, s, events[0]), events[1..]);
    }
  }

  /** However many events and drains name it, a run is claimed at most once. */
  lemma ClaimedOnce(c: Config, s: State, events: seq<Event>)
    requires Init(c, s)
    ensures var claims := Run(c, s, events).claims; forall i, j | 0 <= i < j < |claims| :: claims[i] != claims[j]
  {
    InitInv(c, s);
    ClaimKept(c, s, events);
  }
}

/** The concurrency limit on running runs. */
module RunSlots {
  import opened Wrappers
  import opened PipelineRuns
  import opened RunMachine

  // ---------------------------------------------------------------- the advisory lock

  /** The lock is held exactly while its holder is inside the claim, and by nobody else. */
  ghost predicate LockInv(s: State) {
    && (s.lock.Some? ==> s.lock.value in s.tasks && InClaim(s.tasks[s.lock.value].pc))
    && forall t :: t in s.tasks && InClaim(s.tasks[t].pc) ==> s.lock == Some(t)
  }

  lemma LockApply(s: State, t: nat, db': Db, m: Move)
    requires LockInv(s) && t in s.tasks && Handled(s.tasks[t].pc).Some?
    requires LockMove(s.lock.None?, s.tasks[t].pc, m)
    ensures LockInv(Apply(s, t, db', m))
  {
  }

  ghost predicate LockMove(lockFree: bool, pc: Pc, m: Move) {
    && (m.At? && InClaim(m.pc) ==> (pc.Lock? && lockFree) || pc.Snapshot? || pc.Write?)
    && (m.At? && !InClaim(m.pc) ==> pc.Commit? || (!InClaim(pc) && !pc.Lock?))
    && (m.Stay? ==> !InClaim(pc))
    && (m.Done? && InClaim(pc) ==> pc.Write?)
  }

  lemma LockResume(c: Config, db: Db, lockFree: bool, pc: Pc, k: Choice)
    requires Handled(pc).Some?
    ensures LockMove(lockFree, pc, Resume(c, db, lockFree, pc, k).1)
  {
  }

  lemma LockStep(c: Config, s: State, e: Event)
    requires LockInv(s)
    ensures LockInv(Next(c, s, e))
  {
    match e
    case Act(t, k) =>
      if t in s.tasks && Handled(s.tasks[t].pc).Some? {
        hide Handle, Launch, Settle;
        var (db', m) := Resume(c, s.db, s.lock.None?, s.tasks[t].pc, k);
        LockResume(c, s.db, s.lock.None?, s.tasks[t].pc, k);
        LockApply(s, t, db', m);
      }
    case _ =>
  }

  // ---------------------------------------------------------------- the count

  ghost predicate SlotPc(c: Config, running: nat, pc: Pc) {
    && (pc.Write? ==> running <= pc.count)
    && (pc.Commit? ==> running < c.maxRuns)
    && (pc.Finish? ==> pc.final != Running)
    && (pc.Complete? && pc.after.ThenFinish? ==> pc.after.status != Running)
  }

  ghost predicate CountAt(c: Config, tasks: map<nat, Task>, running: nat) {
    && running <= c.maxRuns
    && forall t :: t in tasks ==> SlotPc(c, running, tasks[t].pc)
  }

  /** The count a claim has read is never below the true count: only the lock holder's commit
      raises the count. */
  ghost predicate SlotInv(c: Config, s: State) {
    LockInv(s) && CountAt(c, s.tasks, RunningCount(s.db.runs))
  }

  lemma NewRunCount(runs: map<RunId, RunStatus>, r: RunId)
    requires r !in runs
    ensures RunningCount(runs[r := Pending]) == RunningCount(runs)
  {
    assert RunningRuns(runs[r := Pending]) == RunningRuns(runs);
  }

  lemma HandleCount(c: Config, db: Db, lockFree: bool, pc: Pc)
    requires SlotPc(c, RunningCount(db.runs), pc) && InHandle(pc)
    ensures var (db', m) := Handle(c, db, lockFree, pc);
            && (m.At? ==> SlotPc(c, RunningCount(db'.runs), m.pc))
            && RunningCount(db'.runs) <= RunningCount(db.runs) + (if pc.Commit? then 1 else 0)
            && (m.Stay? ==> !InClaim(pc))
  {
    match pc
    case FailEmpty(r) => SetRunCount(db, r, Failed);
    case Commit(r) => SetRunCount(db, r, Running);
    case _ =>
  }

  /** Only a commit raises the count. */
  lemma ResumeCount(c: Config, db: Db, lockFree: bool, pc: Pc, k: Choice)
    requires SlotPc(c, RunningCount(db.runs), pc) && Handled(pc).Some?
    ensures var (db', m) := Resume(c, db, lockFree, pc, k);
            && (m.At? ==> SlotPc(c, RunningCount(db'.runs), m.pc))
            && RunningCount(db'.runs) <= RunningCount(db.runs) + (if pc.Commit? then 1 else 0)
            && (m.Stay? ==> !InClaim(pc))
  {
    if InHandle(pc) {
      HandleCount(c, db, lockFree, pc);
    } else if pc.Finish? {
      SetRunCount(db, pc.r, pc.final);
    } else {
      hide RunningCount;
      ResumeRuns(c, db, lockFree, pc, k);
      hide SlotPc, Resume;
    }
  }

  /** All other steps leave the runs alone. */
  lemma ResumeRuns(c: Config, db: Db, lockFree: bool, pc: Pc, k: Choice)
    requires Handled(pc).Some? && !InHandle(pc) && !pc.Finish?
    requires pc.Complete? && pc.after.ThenFinish? ==> pc.after.status != Running
    ensures var (db', m) := Resume(c, db, lockFree, pc, k);
            && db'.runs == db.runs
            && (m.At? ==> forall n: nat :: SlotPc(c, n, m.pc))
            && !InClaim(pc)
  {
    hide MaxAttempt;
  }

  lemma CountApply(c: Config, s: State, t: nat, db': Db, m: Move, before: nat, after: nat)
    requires LockInv(s) && CountAt(c, s.tasks, before) && t in s.tasks && Handled(s.tasks[t].pc).Some?
    requires after <= before + if s.tasks[t].pc.Commit? then 1 else 0
    requires (m.At? ==> SlotPc(c, after, m.pc)) && (m.Stay? ==> !InClaim(s.tasks[t].pc))
    ensures CountAt(c, Apply(s, t, db', m).tasks, after)
  {
  }

  lemma SlotAct(c: Config, s: State, t: nat, k: Choice)
    requires SlotInv(c, s) && t in s.tasks && Handled(s.tasks[t].pc).Some?
    ensures var (db', m) := Resume(c, s.db, s.lock.None?, s.tasks[t].pc, k);
            CountAt(c, Apply(s, t, db', m).tasks, RunningCount(db'.runs))
  {
    hide Resume, RunningCount, Apply;
    var (db', m) := Resume(c, s.db, s.lock.None?, s.tasks[t].pc, k);
    ResumeCount(c, s.db, s.lock.None?, s.tasks[t].pc, k);
    CountApply(c, s, t, db', m, RunningCount(s.db.runs), RunningCount(db'.runs));
  }

  lemma SlotStep(c: Config, s: State, e: Event)
    requires SlotInv(c, s)
    ensures SlotInv(c, Next(c, s, e))
  {
    hide RunningCount, Resume;
    LockStep(c, s, e);
    match e
    case NewRun(r) => if r !in s.db.runs { NewRunCount(s.db.runs, r); }
    case Trigger(r, _) => if r !in s.db.runs { NewRunCount(s.db.runs, r); }
    case CancelRun(r) => SetRunCount(s.db, r, Cancelled);
    case Act(t, k) => if t in s.tasks && Handled(s.tasks[t].pc).Some? { SlotAct(c, s, t, k); }
    case _ =>
  }

  /** However claims, drains, finishes, cancellations, crashes and recoveries interleave, the
      number of running runs stays within the limit if it starts there. */
  lemma {:induction false} SlotBound(c: Config, s: State, events: seq<Event>)
    requires RunningCount(s.db.runs) <= c.maxRuns && s.tasks == map[] && s.lock == None
    ensures RunningCount(Run(c, s, events).db.runs) <= c.maxRuns
  {
    SlotInvAlways(c, s, events);
  }

  lemma {:induction false} SlotInvAlways(c: Config, s: State, events: seq<Event>)
    requires SlotInv(c, s)
    ensures SlotInv(c, Run(c, s, events))
    decreases |events|
  {
    if events != [] {
      SlotStep(c, s, events[0]);
      SlotInvAlways(c, Next(c, s, events[0]), events[1..]);
    }
  }
}

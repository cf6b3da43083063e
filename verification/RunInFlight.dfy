/** The inFlight set and the loops around it: what is in it, and what each loop does next. */
module RunInFlight {
  import opened Wrappers
  import opened PipelineRuns
  import opened RunMachine
  import opened RunSlots
  import opened RunInvariant

  // ---------------------------------------------------------------- nothing stays behind

  ghost predicate Handling(s: State, r: RunId) {
    exists t :: t in s.tasks && Flying(s.tasks[t]) == Some(r)
  }

  ghost predicate NoLeak(s: State) {
    forall r | r in s.inFlight :: Handling(s, r)
  }

  lemma ApplyNoLeak(s: State, t: nat, db': Db, m: Move)
    requires NoLeak(s) && t in s.tasks && Handled(s.tasks[t].pc).Some?
    requires m.At? ==> Handled(m.pc) == Handled(s.tasks[t].pc)
    ensures NoLeak(Apply(s, t, db', m))
  {
    var s' := Apply(s, t, db', m);
    forall r | r in s'.inFlight
      ensures Handling(s', r)
    {
      assert Handling(s, r);
      var u :| u in s.tasks && Flying(s.tasks[u]) == Some(r);
      assert Flying(s'.tasks[u]) == Some(r);
    }
  }

  lemma ActNoLeak(c: Config, s: State, t: nat, k: Choice)
    requires RunInv(c, s) && NoLeak(s) && t in s.tasks && Handled(s.tasks[t].pc).Some?
    ensures NoLeak(ActStep(c, s, t, k))
  {
    var pc := s.tasks[t].pc;
    assert TaskOk(c, s.db, s.inFlight, s.tasks[t]);
    ResumeGood(c, s.db, s.lock.None?, pc, k);
    ResumeShape(c, s.db, s.lock.None?, pc, k);
    var (db', m) := Resume(c, s.db, s.lock.None?, pc, k);
    hide RunInv, Resume, Apply, NoLeak, PcOk, OnlyOwnRow, DataOk;
    ApplyNoLeak(s, t, db', m);
  }

  lemma ItemNoLeak(c: Config, s: State, t: nat, k: Choice)
    requires NoLeak(s) && t in s.tasks && Handled(s.tasks[t].pc).None?
    ensures NoLeak(NextItem(c, s, t, k))
  {
    var s' := NextItem(c, s, t, k);
    forall r | r in s'.inFlight
      ensures Handling(s', r)
    {
      if r in s.inFlight {
        assert Handling(s, r);
        var u :| u in s.tasks && Flying(s.tasks[u]) == Some(r);
        assert u != t && Flying(s'.tasks[u]) == Some(r);
      } else {
        assert Flying(s'.tasks[t]) == Some(r);
      }
    }
  }

  lemma UnwindNoLeak(s: State, t: nat)
    requires NoLeak(s) && t in s.tasks
    ensures NoLeak(Unwind(s, t))
  {
    var s' := Unwind(s, t);
    forall r | r in s'.inFlight
      ensures Handling(s', r)
    {
      assert Handling(s, r);
      var u :| u in s.tasks && Flying(s.tasks[u]) == Some(r);
      assert u != t && Flying(s'.tasks[u]) == Some(r);
    }
  }

  lemma SpawnNoLeak(c: Config, s: State, e: Event)
    requires NoLeak(s) && !e.Act? && !e.Throw?
    ensures NoLeak(Next(c, s, e))
  {
    hide ActStep, MaxAttempt;
    var s' := Next(c, s, e);
    forall r | r in s'.inFlight
      ensures Handling(s', r)
    {
      if r in s.inFlight {
        assert Handling(s, r);
        var u :| u in s.tasks && Flying(s.tasks[u]) == Some(r);
        assert Flying(s'.tasks[u]) == Some(r);
      } else {
        assert Flying(s'.tasks[e.t]) == Some(r);
      }
    }
  }

  lemma NoLeakStep(c: Config, s: State, e: Event)
    requires RunInv(c, s) && NoLeak(s)
    ensures NoLeak(Next(c, s, e))
  {
    hide RunInv, NoLeak, ActStep, Unwind;
    if e.Act? {
      if e.t in s.tasks {
        StepNoLeak(c, s, e.t, e.choice);
      }
    } else if e.Throw? {
      if e.t in s.tasks {
        UnwindNoLeak(s, e.t);
      }
    } else {
      SpawnNoLeak(c, s, e);
    }
  }

  lemma StepNoLeak(c: Config, s: State, t: nat, k: Choice)
    requires RunInv(c, s) && NoLeak(s) && t in s.tasks
    ensures NoLeak(ActStep(c, s, t, k))
  {
    if Handled(s.tasks[t].pc).Some? {
      ActNoLeak(c, s, t, k);
    } else {
      hide NoLeak, RunInv;
      ItemNoLeak(c, s, t, k);
    }
  }

  lemma {:induction false} NoLeakAlways(c: Config, s: State, events: seq<Event>)
    requires RunInv(c, s) && NoLeak(s)
    ensures RunInv(c, Run(c, s, events)) && NoLeak(Run(c, s, events))
    decreases |events|
  {
    if events != [] {
      hide RunInv, NoLeak, Next;
      InvStep(c, s, events[0]);
      NoLeakStep(c, s, events[0]);
      NoLeakAlways(c, Next(c, s, events[0]), events[1..]);
    }
  }

  /** In every reachable state a run is in the set exactly while some event's or drain's activation handles it:
      nothing is left behind when an activation returns, throws or is killed. */
  lemma InFlightExact(c: Config, s: State, events: seq<Event>)
    requires Init(c, s)
    ensures var s' := Run(c, s, events); forall r :: r in s'.inFlight <==> Handling(s', r)
  {
    InitInv(c, s);
    NoLeakAlways(c, s, events);
    var s' := Run(c, s, events);
    forall r | Handling(s', r)
      ensures r in s'.inFlight
    {
      var t :| t in s'.tasks && Flying(s'.tasks[t]) == Some(r);
      assert TaskOk(c, s'.db, s'.inFlight, s'.tasks[t]);
    }
  }

  // ---------------------------------------------------------------- the loops

  /** The recovery loop visits a stale row once: it leaves the row of a living process alone, fails one whose
      stage is gone unless it was cancelled, and begins to recover any other; with no row left it becomes a
      drain. */
  lemma RecoveryLoop(c: Config, s: State, t: nat, i: nat, alive: bool)
    requires t in s.tasks && s.tasks[t] == Task(ByRecovery, Idle)
    ensures
      var s' := Next(c, s, Act(t, Visit(i, alive)));
      && (s.stale == {} ==> s' == s.(tasks := s.tasks[t := Task(ByDrain([]), ListPending)]))
      && (i in s.stale && i < |s.db.rows| ==>
            var row := s.db.rows[i];
            var known := row.stage in c.stages;
            && s'.stale == s.stale - {i} && s'.inFlight == s.inFlight && s'.db.runs == s.db.runs
            && |s'.db.rows| == |s.db.rows| && (forall j | 0 <= j < |s.db.rows| && j != i :: s'.db.rows[j] == s.db.rows[j])
            && s'.db.rows[i].status == (if !alive && !known && row.status != RowCancelled then RowFailed else row.status)
            && s'.tasks[t] == Task(ByRecovery, if !alive && known then RecoverRow(row.run, i) else Idle))
  {
  }

  /** A drain takes its runs in order, those that are not in flight already, and ends with its queue. */
  lemma DrainLoop(c: Config, s: State, t: nat, k: Choice)
    requires t in s.tasks && s.tasks[t].driver.ByDrain? && s.tasks[t].pc.Idle?
    ensures
      var s' := Next(c, s, Act(t, k));
      var queue := s.tasks[t].driver.queue;
      && s'.db == s.db
      && (queue == [] ==> s'.tasks[t].pc.Over? && s'.inFlight == s.inFlight)
      && (queue != [] ==>
            && s'.inFlight == s.inFlight + {queue[0]}
            && s'.tasks[t] == Task(ByDrain(queue[1..]), if queue[0] in s.inFlight then Idle else GetRun(queue[0])))
  {
  }

  /** A handler that returns ends an event's activation, and gives a drain or the recovery its loop back; its run
      leaves the set, which recovery never put it into. */
  lemma HandlerReturns(c: Config, s: State, t: nat, k: Choice)
    requires t in s.tasks && Handled(s.tasks[t].pc).Some?
    requires Handled(Next(c, s, Act(t, k)).tasks[t].pc).None?
    ensures
      var s', task := Next(c, s, Act(t, k)), s.tasks[t];
      && s'.tasks[t] == Task(task.driver, if task.driver.ByEvent? then Over else Idle)
      && s'.inFlight == if task.driver.ByRecovery? then s.inFlight else s.inFlight - {task.pc.r}
  {
    var pc := s.tasks[t].pc;
    ResumeShape(c, s.db, s.lock.None?, pc, k);
    var (db', m) := Resume(c, s.db, s.lock.None?, pc, k);
    hide Resume, Apply;
    ApplyReturns(s, t, db', m);
  }

  lemma ApplyReturns(s: State, t: nat, db': Db, m: Move)
    requires t in s.tasks && Handled(s.tasks[t].pc).Some? && (m.At? ==> Handled(m.pc).Some?)
    ensures var s', task := Apply(s, t, db', m), s.tasks[t];
            t in s'.tasks && (Handled(s'.tasks[t].pc).None? ==>
              && s'.tasks[t] == Task(task.driver, if task.driver.ByEvent? then Over else Idle)
              && s'.inFlight == if task.driver.ByRecovery? then s.inFlight else s.inFlight - {task.pc.r})
  {
  }

  /** An event for a run that nobody handles is taken up; one for a run in flight is dropped. */
  lemma EventTaken(c: Config, s: State, t: nat, r: RunId)
    requires s.up && t !in s.tasks
    ensures
      var s' := Next(c, s, Deliver(t, r));
      if r in s.inFlight then s' == s
      else s' == s.(inFlight := s.inFlight + {r}, tasks := s.tasks[t := Task(ByEvent, GetRun(r))])
  {
  }
}

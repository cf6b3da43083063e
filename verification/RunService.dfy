/** The run service over its mutable tables: one method per statement or transaction. */
module RunService {
  import opened Wrappers
  import opened PipelineRuns
  import opened RunMachine

  class RunService {
    var runs: map<RunId, RunStatus>
    var stageRuns: seq<StageRun>

    constructor ()
      ensures Tables() == Db(map[], [])
    {
      runs, stageRuns := map[], [];
    }

    function Tables(): Db
      reads this
    {
      Db(runs, stageRuns)
    }

    method CreateRun(r: RunId) returns (created: bool)
      modifies this
      ensures created <==> r !in old(runs)
      ensures stageRuns == old(stageRuns)
      ensures runs == if created then old(runs)[r := Pending] else old(runs)
    {
      created := r !in runs;
      if created {
        runs := runs[r := Pending];
      }
    }

    /** The whole transaction, as the advisory lock makes it appear to other claims. */
    method TryAcquireRunningSlot(r: RunId, maxConcurrent: int) returns (acquired: bool)
      modifies this
      ensures acquired <==> r in old(runs) && old(runs)[r] == Pending && RunningCount(old(runs)) < maxConcurrent
      ensures Tables() == if acquired then SetRun(old(Tables()), r, Running) else old(Tables())
      ensures RunningCount(old(runs)) <= maxConcurrent ==> RunningCount(runs) <= maxConcurrent
    {
      SetRunCount(Tables(), r, Running);
      acquired := false;
      if r in runs && runs[r] == Pending && RunningCount(runs) < maxConcurrent {
        runs := runs[r := Running];
        acquired := true;
      }
    }

    /** updateRunStatus and completeRun: an unconditional write. */
    method WriteRunStatus(r: RunId, status: RunStatus)
      modifies this
      ensures Tables() == SetRun(old(Tables()), r, status)
    {
      if r in runs {
        runs := runs[r := status];
      }
    }

    method CreateStageRun(r: RunId, s: StageId, cause: Cause) returns (i: nat)
      modifies this
      ensures i == |old(stageRuns)|
      ensures Tables() == AddRow(old(Tables()), r, s, MaxAttempt(old(stageRuns), r, s) + 1, cause)
    {
      var latest := MaxAttempt(stageRuns, r, s);
      i := |stageRuns|;
      stageRuns := stageRuns + [StageRun(r, s, latest + 1, RowPending, cause, false)];
    }

    method UpdateStageRunStatus(i: nat, status: RowStatus)
      modifies this
      ensures Tables() == SetRow(old(Tables()), i, status)
    {
      if i < |stageRuns| {
        var row := stageRuns[i];
        stageRuns := stageRuns[i := row.(status := status, started := row.started || status == RowRunning)];
      }
    }

    method CompleteStageRun(i: nat, status: RowStatus)
      modifies this
      ensures Tables() == CompleteRow(old(Tables()), i, status)
      ensures i < |old(stageRuns)| && old(stageRuns)[i].status == RowCancelled && status != RowCancelled
              ==> Tables() == old(Tables())
    {
      if i < |stageRuns| && (status == RowCancelled || stageRuns[i].status != RowCancelled) {
        UpdateStageRunStatus(i, status);
      }
    }

    /** An operator's trigger: the run, then its seed row, which is the one that a claim of the run takes up.
        Rows only exist for runs that do. */
    method Trigger(r: RunId, s: StageId) returns (created: bool)
      requires forall j | 0 <= j < |stageRuns| :: stageRuns[j].run in runs
      modifies this
      ensures created <==> r !in old(runs)
      ensures !created ==> Tables() == old(Tables())
      ensures created ==>
        && runs == old(runs)[r := Pending]
        && stageRuns == old(stageRuns) + [StageRun(r, s, 1, RowPending, Seed, false)]
        && FirstPending(stageRuns, r) == Some(|old(stageRuns)|)
      ensures forall j | 0 <= j < |stageRuns| :: stageRuns[j].run in runs
    {
      created := CreateRun(r);
      if created {
        var before := stageRuns;
        NoRows(before, r, s);
        var i := CreateStageRun(r, s, Seed);
        assert stageRuns[..i] == before;
        FirstPendingExact(before, r);
      }
    }
  }

  lemma {:induction false} NoRows(rows: seq<StageRun>, r: RunId, stage: StageId)
    requires forall i | 0 <= i < |rows| :: rows[i].run != r
    ensures MaxAttempt(rows, r, stage) == 0
  {
    if rows != [] {
      NoRows(rows[..|rows| - 1], r, stage);
    }
  }
}

/** What one launch leaves behind, column by column, for every result it can meet. */
module LaunchOutcomes {
  import opened Wrappers
  import opened PipelineRuns
  import opened RunMachine
  import opened RunRouting
  import opened StageExecutor

  /** The retries a stage is configured with; none means zero. */
  predicate Retriable(stage: Stage, attempt: nat) {
    attempt <= match stage.maxRetries case Some(n) => n case None => 0
  }

  /** The row: a new one is numbered after the highest attempt of its stage; it ends pending at a held gate,
      completed after a verdict, failed otherwise, but a cancelled seed row stays cancelled unless it was
      marked running. No other row changes. */
  lemma LaunchRow(c: Config, db: Db, r: RunId, s: StageId, pre: Option<nat>, cause: Cause, res: LaunchResult)
    requires s in c.stages && ValidPre(db, r, s, pre)
    ensures
      var db' := LaunchOnce(c, db, r, s, pre, cause, res).0;
      var i := if pre.Some? then pre.value else |db.rows|;
      && |db'.rows| == |db.rows| + (if pre.Some? then 0 else 1)
      && (forall j | 0 <= j < |db.rows| && j != i :: db'.rows[j] == db.rows[j])
      && db'.rows[i].run == r && db'.rows[i].stage == s
      && db'.rows[i].attempt == (if pre.Some? then db.rows[i].attempt else MaxAttempt(db.rows, r, s) + 1)
      && db'.rows[i].cause == (if pre.Some? then db.rows[i].cause else cause)
      && db'.rows[i].status ==
         (if c.stages[s].held then RowPending
          else if pre.Some? && db.rows[i].status == RowCancelled && !ReachesDriver(res) then RowCancelled
          else if c.hasRunner && res.Judged? then RowCompleted
          else RowFailed)
  {
    hide MaxAttempt, Follow;
  }

  /** The run, and what comes next: a hold leaves the run as it is; without driver, artifacts path or runner it
      fails; a failed environment or execution is retried if and only if the attempt is within `maxRetries`,
      and fails the run otherwise; a verdict goes where its column says. */
  lemma LaunchDecides(c: Config, db: Db, r: RunId, s: StageId, pre: Option<nat>, cause: Cause, res: LaunchResult)
    requires s in c.stages && ValidPre(db, r, s, pre)
    ensures
      var (db', step) := LaunchOnce(c, db, r, s, pre, cause, res);
      var stage := c.stages[s];
      var attempt := if pre.Some? then db.rows[pre.value].attempt else MaxAttempt(db.rows, r, s) + 1;
      var judged := !stage.held && c.hasRunner && res.Judged?;
      var failed := !stage.held && (res.NotAcquired? || (c.hasRunner && res.Failing?));
      && (step == Stop(Held) <==> stage.held)
      && (!stage.held && !judged && !failed ==> step == Stop(Finished(Failed)))
      && (failed ==> step == if Retriable(stage, attempt) then Again(s, Retry(attempt)) else Stop(Finished(Failed)))
      && (judged && res.gone ==> step == Stop(Finished(Failed)))
      && (judged && !res.gone ==>
            && (step == Stop(Finished(Completed)) <==> Column(stage, res.v, "__complete__"))
            && (forall q: StageId :: step == Again(q, Entry) <==> LeadsTo(c, r, stage, res.v, q))
            && (step == Stop(Finished(Blocked)) <==>
                !Column(stage, res.v, "__complete__") && forall q: StageId :: !LeadsTo(c, r, stage, res.v, q)))
      && db'.runs == (if step.Stop? && step.end.Finished? && r in db.runs then db.runs[r := step.end.status] else db.runs)
  {
    var (db1, i) := Row(db, r, s, pre, cause);
    if res.Judged? {
      RoutesByColumn(c, r, db1.rows[i], res.v, res.gone);
    }
    hide MaxAttempt, LeadsTo, RouteTo, Column;
  }
}

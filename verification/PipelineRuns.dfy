/**
 The `pipeline_run` and `stage_run` tables, the statements that touch them, and the
 routing decisions made on their contents.

 Each function on `Db` is one SQL statement: it is atomic, and an `UPDATE` whose
 `WHERE` matches no row leaves the table as it was.
 */
module PipelineRuns {
  import opened Wrappers

  type RunId = nat
  type StageId = nat

  datatype RunStatus =
    Pending | Queued | Running | Completed | Failed | TimedOut | Cancelled | Blocked

  datatype RowStatus =
    RowPending | RowLaunching | RowRunning | RowCompleted | RowFailed | RowTimedOut | RowCancelled

  /** Why a stage_run row exists. Not a column: it records which call site inserted the row,
      and for a relaunch after a failure the attempt that failed. */
  datatype Cause = Seed | Entry | Retry(failed: nat)

  /** `started` stands for a non-null `started_at`. */
  datatype StageRun = StageRun(run: RunId, stage: StageId, attempt: nat, status: RowStatus,
                               cause: Cause, started: bool)

  /** Rows of stage_run are never deleted, so their position in `rows` is their id. */
  datatype Db = Db(runs: map<RunId, RunStatus>, rows: seq<StageRun>)

  const TERMINAL := {Completed, Failed, TimedOut, Cancelled}

  // ---------------------------------------------------------------- statements

  function SetRun(db: Db, r: RunId, status: RunStatus): Db {
    if r in db.runs then db.(runs := db.runs[r := status]) else db
  }

  function SetRow(db: Db, i: nat, status: RowStatus): Db {
    if i < |db.rows| then
      db.(rows := db.rows[i := db.rows[i].(status := status,
                                           started := db.rows[i].started || status == RowRunning)])
    else db
  }

  /** The guarded write of completeStageRun: only a cancellation may overwrite a cancellation. */
  function CompleteRow(db: Db, i: nat, status: RowStatus): Db {
    if i < |db.rows| && (status == RowCancelled || db.rows[i].status != RowCancelled)
    then SetRow(db, i, status) else db
  }

  function AddRow(db: Db, r: RunId, s: StageId, attempt: nat, cause: Cause): Db {
    db.(rows := db.rows + [StageRun(r, s, attempt, RowPending, cause, false)])
  }

  /** `coalesce(max(attempt), 0)` over the rows of one run and stage. */
  function MaxAttempt(rows: seq<StageRun>, r: RunId, s: StageId): nat {
    if rows == [] then 0
    else
      var rest := MaxAttempt(rows[..|rows| - 1], r, s);
      var last := rows[|rows| - 1];
      if last.run == r && last.stage == s && last.attempt > rest then last.attempt else rest
  }

  function Count(rows: seq<StageRun>, r: RunId, s: StageId): nat {
    if rows == [] then 0
    else
      var last := rows[|rows| - 1];
      Count(rows[..|rows| - 1], r, s) + if last.run == r && last.stage == s then 1 else 0
  }

  function RunningRuns(runs: map<RunId, RunStatus>): set<RunId> {
    set r | r in runs && runs[r] == Running
  }

  function RunningCount(runs: map<RunId, RunStatus>): nat {
    |RunningRuns(runs)|
  }

  // ---------------------------------------------------------------- routing

  datatype Stage = Stage(name: string, maxRetries: Option<int>, held: bool,
                         onPass: Option<string>, onFail: Option<string>, fallback: Option<string>)

  /** `held` gate modes are hold and manual. `pipeline(r)` lists the stages of the run's pipeline
      in sort order; the foreign key puts each of them in `stages`. `hasRunner`: the daemon was given a
      graph runner. */
  datatype Config = Config(maxRuns: int, stages: map<StageId, Stage>, pipeline: RunId -> seq<StageId>, hasRunner: bool)

  ghost predicate ConfigOk(c: Config) {
    forall r, s :: s in c.pipeline(r) ==> s in c.stages
  }

  datatype Verdict = Proceed | Rework | Hold

  datatype Routing = End(status: RunStatus) | To(stage: StageId)

  function FindByName(c: Config, ids: seq<StageId>, name: string): (found: Option<StageId>)
    ensures found.Some? ==> found.value in ids
  {
    if ids == [] then None
    else if ids[0] in c.stages && c.stages[ids[0]].name == name then Some(ids[0])
    else FindByName(c, ids[1..], name)
  }

  function Target(stage: Stage, v: Verdict): Option<string> {
    match v
    case Proceed => stage.onPass
    case Rework => stage.onFail
    case Hold => stage.fallback
  }

  /** Where a completed stage sends its run. */
  function RouteTo(c: Config, r: RunId, stage: Stage, v: Verdict): (to: Routing)
    ensures to.To? ==> to.stage in c.pipeline(r)
    ensures to.End? ==> to.status in {Completed, Blocked}
  {
    var target := Target(stage, v);
    if target.None? || target.value == "" then End(Blocked)
    else if target.value == "__complete__" then End(Completed)
    else if target.value == "__blocked__" then End(Blocked)
    else
      var next := FindByName(c, c.pipeline(r), target.value);
      if next.Some? then To(next.value) else End(Blocked)
  }

  function MaxRetries(c: Config, s: StageId): int {
    if s in c.stages && c.stages[s].maxRetries.Some? then c.stages[s].maxRetries.value else 0
  }

  predicate MayRetry(c: Config, s: StageId, attempt: nat) {
    attempt < MaxRetries(c, s) + 1
  }

  // ---------------------------------------------------------------- facts about the tables

  lemma {:induction false} MaxAttemptBounds(rows: seq<StageRun>, r: RunId, s: StageId)
    ensures forall i :: 0 <= i < |rows| && rows[i].run == r && rows[i].stage == s
                        ==> rows[i].attempt <= MaxAttempt(rows, r, s)
    ensures MaxAttempt(rows, r, s) == 0
         || exists i :: 0 <= i < |rows| && rows[i].run == r && rows[i].stage == s
                        && rows[i].attempt == MaxAttempt(rows, r, s)
  {
    if rows != [] {
      var init := rows[..|rows| - 1];
      MaxAttemptBounds(init, r, s);
      forall i | 0 <= i < |rows| && rows[i].run == r && rows[i].stage == s
        ensures rows[i].attempt <= MaxAttempt(rows, r, s)
      {
        assert i < |init| ==> rows[i] == init[i];
      }
      if MaxAttempt(rows, r, s) == MaxAttempt(init, r, s) != 0 {
        var i :| 0 <= i < |init| && init[i].run == r && init[i].stage == s
                 && init[i].attempt == MaxAttempt(init, r, s);
        assert rows[i] == init[i];
      }
    }
  }

  predicate IsNamed(c: Config, s: StageId, name: string) {
    s in c.stages && c.stages[s].name == name
  }

  /** The lookup by name finds the first stage of that name, and nothing exactly when there is none. */
  lemma {:induction false} FindByNameExact(c: Config, ids: seq<StageId>, name: string)
    ensures FindByName(c, ids, name).None? <==> forall i | 0 <= i < |ids| :: !IsNamed(c, ids[i], name)
    ensures FindByName(c, ids, name).Some? ==>
              exists i :: 0 <= i < |ids| && ids[i] == FindByName(c, ids, name).value && IsNamed(c, ids[i], name)
                          && forall j | 0 <= j < i :: !IsNamed(c, ids[j], name)
  {
    if ids != [] && !IsNamed(c, ids[0], name) {
      var rest := ids[1..];
      FindByNameExact(c, rest, name);
      assert forall i | 0 < i < |ids| :: ids[i] == rest[i - 1];
      var found := FindByName(c, rest, name);
      if found.Some? {
        var i :| 0 <= i < |rest| && rest[i] == found.value && IsNamed(c, rest[i], name)
                 && forall j | 0 <= j < i :: !IsNamed(c, rest[j], name);
        assert ids[i + 1] == found.value;
      } else {
        assert forall i | 0 <= i < |ids| :: !IsNamed(c, ids[i], name);
      }
    } else if ids != [] {
      assert IsNamed(c, ids[0], name);
    }
  }

  /** Updates of a row never touch its run, stage or attempt. */
  predicate SameKeys(a: seq<StageRun>, b: seq<StageRun>) {
    |a| == |b| && forall i | 0 <= i < |a| ::
      a[i].run == b[i].run && a[i].stage == b[i].stage && a[i].attempt == b[i].attempt
  }

  lemma {:induction false} SameKeysMax(a: seq<StageRun>, b: seq<StageRun>, r: RunId, s: StageId)
    requires SameKeys(a, b)
    ensures MaxAttempt(a, r, s) == MaxAttempt(b, r, s)
  {
    if a != [] {
      SameKeysMax(a[..|a| - 1], b[..|b| - 1], r, s);
    }
  }

  lemma AppendMax(rows: seq<StageRun>, row: StageRun, r: RunId, s: StageId)
    ensures MaxAttempt(rows + [row], r, s)
         == if row.run == r && row.stage == s && row.attempt > MaxAttempt(rows, r, s) then row.attempt
            else MaxAttempt(rows, r, s)
  {
    assert (rows + [row])[..|rows|] == rows;
  }

  /** Marking one more run as running raises the count by at most one; any other status never does. */
  lemma SetRunCount(db: Db, r: RunId, status: RunStatus)
    ensures RunningCount(SetRun(db, r, status).runs)
         <= RunningCount(db.runs) + if status == Running then 1 else 0
  {
    var before := RunningRuns(db.runs);
    var after := RunningRuns(SetRun(db, r, status).runs);
    if status == Running {
      SubsetSize(after, before + {r});
    } else {
      SubsetSize(after, before);
    }
  }

  lemma SubsetSize<T>(a: set<T>, b: set<T>)
    requires a <= b
    ensures |a| <= |b|
  {
    assert b == a + (b - a);
  }
}

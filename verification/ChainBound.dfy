/** The executor's chain of launches ends, and after how many launches at the latest. */
module ChainBound {
  import opened Wrappers
  import opened PipelineRuns
  import opened RunMachine
  import opened StageExecutor

  /** Launches a stage may still get on account of failures. */
  function Left(c: Config, rows: seq<StageRun>, r: RunId, s: StageId): nat {
    if MayRetry(c, s, MaxAttempt(rows, r, s)) then MaxRetries(c, s) + 1 - MaxAttempt(rows, r, s) else 0
  }

  function RetriesLeft(c: Config, rows: seq<StageRun>, r: RunId, ids: seq<StageId>): nat {
    if ids == [] then 0 else Left(c, rows, r, ids[0]) + RetriesLeft(c, rows, r, ids[1..])
  }

  function NonPass(results: seq<LaunchResult>): nat {
    if results == [] then 0
    else (if results[0].Judged? && results[0].v != Proceed then 1 else 0) + NonPass(results[1..])
  }

  /** `rank` witnesses that the onPass links among the run's stages have no cycle. */
  ghost predicate Ranked(c: Config, r: RunId, rank: StageId -> nat, top: nat)
    requires ConfigOk(c)
  {
    forall s | s in c.pipeline(r) ::
      && rank(s) <= top
      && (RouteTo(c, r, c.stages[s], Proceed).To? ==> rank(RouteTo(c, r, c.stages[s], Proceed).stage) < rank(s))
  }

  /** Lexicographic: non-pass verdicts to come, then retries left, then the rank of the stage. */
  function Measure(nonPass: nat, left: nat, rank: nat, most: nat, top: nat): nat {
    (nonPass * (most + 1) + left) * (top + 1) + rank
  }

  lemma MulStep(a: nat, a': nat, b: nat)
    requires a' < a
    ensures a' * b + b <= a * b
  {
    assert (a' + 1) * b <= a * b;
  }

  lemma MeasureFalls(n: nat, t: nat, k: nat, n': nat, t': nat, k': nat, most: nat, top: nat)
    requires t <= most && t' <= most && k <= top && k' <= top
    requires n' < n || (n' == n && (t' < t || (t' == t && k' < k)))
    ensures Measure(n', t', k', most, top) < Measure(n, t, k, most, top)
  {
    if n' < n {
      MulStep(n, n', most + 1);
    }
    var a, a' := n * (most + 1) + t, n' * (most + 1) + t';
    if n' < n || t' < t {
      MulStep(a, a', top + 1);
    }
  }

  // ---------------------------------------------------------------- one launch

  lemma LeftShrinks(c: Config, rows: seq<StageRun>, rows': seq<StageRun>, r: RunId, s: StageId)
    requires MaxAttempt(rows, r, s) <= MaxAttempt(rows', r, s)
    ensures Left(c, rows', r, s) <= Left(c, rows, r, s)
    ensures MaxAttempt(rows, r, s) < MaxAttempt(rows', r, s) && MayRetry(c, s, MaxAttempt(rows', r, s)) ==>
              Left(c, rows', r, s) < Left(c, rows, r, s)
  {
  }

  lemma {:induction false} SumShrinks(c: Config, rows: seq<StageRun>, rows': seq<StageRun>, r: RunId, ids: seq<StageId>, s: StageId)
    requires forall q :: MaxAttempt(rows, r, q) <= MaxAttempt(rows', r, q)
    ensures RetriesLeft(c, rows', r, ids) <= RetriesLeft(c, rows, r, ids)
    ensures s in ids && MaxAttempt(rows, r, s) < MaxAttempt(rows', r, s) && MayRetry(c, s, MaxAttempt(rows', r, s)) ==>
              RetriesLeft(c, rows', r, ids) < RetriesLeft(c, rows, r, ids)
  {
    if ids != [] {
      LeftShrinks(c, rows, rows', r, ids[0]);
      SumShrinks(c, rows, rows', r, ids[1..], s);
    }
  }

  lemma LaunchKeys(c: Config, db: Db, r: RunId, s: StageId, pre: Option<nat>, cause: Cause, res: LaunchResult)
    requires s in c.stages && ValidPre(db, r, s, pre)
    ensures SameKeys(Row(db, r, s, pre, cause).0.rows, LaunchOnce(c, db, r, s, pre, cause, res).0.rows)
  {
    hide MaxAttempt, Follow;
  }

  /** A launch that inserts its row uses up one attempt of its stage and of no other. */
  lemma LaunchMax(c: Config, db: Db, r: RunId, s: StageId, pre: Option<nat>, cause: Cause, res: LaunchResult, q: StageId)
    requires s in c.stages && ValidPre(db, r, s, pre)
    ensures var rows' := LaunchOnce(c, db, r, s, pre, cause, res).0.rows;
            MaxAttempt(rows', r, q) == MaxAttempt(db.rows, r, q) + if pre.None? && q == s then 1 else 0
  {
    var (db1, i) := Row(db, r, s, pre, cause);
    var rows' := LaunchOnce(c, db, r, s, pre, cause, res).0.rows;
    if pre.None? {
      AppendMax(db.rows, db1.rows[i], r, q);
    }
    hide LaunchOnce, MaxAttempt;
    LaunchKeys(c, db, r, s, pre, cause, res);
    SameKeysMax(db1.rows, rows', r, q);
  }

  lemma LaunchFalls(c: Config, db: Db, r: RunId, s: StageId, cause: Cause, results: seq<LaunchResult>,
                    rank: StageId -> nat, top: nat, most: nat)
    requires ConfigOk(c) && s in c.pipeline(r) && results != [] && Ranked(c, r, rank, top)
    requires RetriesLeft(c, db.rows, r, c.pipeline(r)) <= most
    ensures
      match LaunchOnce(c, db, r, s, None, cause, results[0])
      case (_, Stop(_)) => true
      case (db', Again(next, _)) =>
        && next in c.pipeline(r)
        && RetriesLeft(c, db'.rows, r, c.pipeline(r)) <= most
        && Measure(NonPass(results[1..]), RetriesLeft(c, db'.rows, r, c.pipeline(r)), rank(next), most, top)
         < Measure(NonPass(results), RetriesLeft(c, db.rows, r, c.pipeline(r)), rank(s), most, top)
  {
    var (db', step) := LaunchOnce(c, db, r, s, None, cause, results[0]);
    if step.Again? {
      forall q
        ensures MaxAttempt(db'.rows, r, q) == MaxAttempt(db.rows, r, q) + if q == s then 1 else 0
      {
        LaunchMax(c, db, r, s, None, cause, results[0], q);
      }
      SumShrinks(c, db.rows, db'.rows, r, c.pipeline(r), s);
      LaunchKind(c, db, r, s, cause, results[0]);
      MeasureFalls(NonPass(results), RetriesLeft(c, db.rows, r, c.pipeline(r)), rank(s),
                   NonPass(results[1..]), RetriesLeft(c, db'.rows, r, c.pipeline(r)), rank(step.s), most, top);
    }
  }

  /** The three ways a launch leads to another. */
  lemma LaunchKind(c: Config, db: Db, r: RunId, s: StageId, cause: Cause, res: LaunchResult)
    requires ConfigOk(c) && s in c.pipeline(r)
    ensures
      var (db', step) := LaunchOnce(c, db, r, s, None, cause, res);
      step.Again? ==>
        && step.s in c.pipeline(r)
        && ((step.s == s && MayRetry(c, s, MaxAttempt(db.rows, r, s) + 1))
            || (res.Judged? && RouteTo(c, r, c.stages[s], res.v) == To(step.s)))
  {
  }

  // ---------------------------------------------------------------- the whole chain

  lemma {:induction false} ChainFalls(c: Config, db: Db, r: RunId, s: StageId, cause: Cause, results: seq<LaunchResult>,
                                      rank: StageId -> nat, top: nat, most: nat)
    requires ConfigOk(c) && s in c.pipeline(r) && Ranked(c, r, rank, top)
    requires RetriesLeft(c, db.rows, r, c.pipeline(r)) <= most
    requires |results| > Measure(NonPass(results), RetriesLeft(c, db.rows, r, c.pipeline(r)), rank(s), most, top)
    ensures Chain(c, db, r, s, None, cause, results).1.Some?
    decreases |results|
  {
    LaunchFalls(c, db, r, s, cause, results, rank, top, most);
    var (db', step) := LaunchOnce(c, db, r, s, None, cause, results[0]);
    if step.Again? {
      ChainFalls(c, db', r, step.s, step.cause, results[1..], rank, top, most);
    }
  }

  /** If the onPass links have no cycle, a run that meets `n` non-pass verdicts is over after at
      most (n + 1) * (retries + 1) * (longest onPass path) launches, one more if it started from
      an operator's seed row. */
  lemma ChainEnds(c: Config, db: Db, r: RunId, s: StageId, pre: Option<nat>, cause: Cause, results: seq<LaunchResult>,
                  rank: StageId -> nat, top: nat)
    requires ConfigOk(c) && s in c.pipeline(r) && ValidPre(db, r, s, pre) && Ranked(c, r, rank, top)
    requires |results| > (NonPass(results) + 1) * (RetriesLeft(c, db.rows, r, c.pipeline(r)) + 1) * (top + 1)
    ensures Chain(c, db, r, s, pre, cause, results).1.Some?
  {
    var most := RetriesLeft(c, db.rows, r, c.pipeline(r));
    var n := NonPass(results);
    if pre.None? {
      MeasureBound(n, most, rank(s), most, top);
      ChainFalls(c, db, r, s, cause, results, rank, top, most);
    } else {
      var (db', step) := LaunchOnce(c, db, r, s, pre, cause, results[0]);
      if step.Again? {
        forall q
          ensures MaxAttempt(db'.rows, r, q) == MaxAttempt(db.rows, r, q)
        {
          LaunchMax(c, db, r, s, pre, cause, results[0], q);
        }
        SumShrinks(c, db.rows, db'.rows, r, c.pipeline(r), s);
        MeasureBound(NonPass(results[1..]), RetriesLeft(c, db'.rows, r, c.pipeline(r)), rank(step.s), most, top);
        BoundMonotone(NonPass(results[1..]), n, most, top);
        ChainFalls(c, db', r, step.s, step.cause, results[1..], rank, top, most);
      }
    }
  }

  lemma MeasureBound(n: nat, t: nat, k: nat, most: nat, top: nat)
    requires t <= most && k <= top
    ensures Measure(n, t, k, most, top) < (n + 1) * (most + 1) * (top + 1)
  {
    var a := n * (most + 1) + t;
    assert a < (n + 1) * (most + 1);
    assert (a + 1) * (top + 1) <= (n + 1) * (most + 1) * (top + 1);
  }

  lemma BoundMonotone(n: nat, n': nat, most: nat, top: nat)
    requires n <= n'
    ensures (n + 1) * (most + 1) * (top + 1) <= (n' + 1) * (most + 1) * (top + 1)
  {
    assert (n + 1) * (most + 1) <= (n' + 1) * (most + 1);
  }
}

/**
 What the attempt numbers of a run add up to when one of its rows, its operator's seed, may have been inserted
 at any time: facts about tables alone.
 */
module AttemptTally {
  import opened Wrappers
  import opened PipelineRuns
  import opened RunInvariant
  import opened RunAttempts

  predicate IsRow(row: StageRun, r: RunId, s: StageId) {
    row.run == r && row.stage == s
  }

  /** Another row of the stage carries the same attempt. */
  ghost predicate Repeated(rows: seq<StageRun>, j: nat)
    requires j < |rows|
  {
    exists l :: 0 <= l < |rows| && l != j && IsRow(rows[l], rows[j].run, rows[j].stage) && rows[l].attempt == rows[j].attempt
  }

  predicate IsSeed(row: StageRun, r: RunId, s: StageId) {
    IsRow(row, r, s) && row.cause == Seed
  }

  ghost predicate SeedRepeats(rows: seq<StageRun>, r: RunId, s: StageId) {
    exists j :: 0 <= j < |rows| && IsSeed(rows[j], r, s) && Repeated(rows, j)
  }

  /** A relaunch answering to attempt `failed`, made now, goes beyond the number that failed: the seed row
      repeats a number of its stage, or it has come after the attempt that failed. */
  ghost predicate SeedBetween(rows: seq<StageRun>, r: RunId, s: StageId, failed: nat) {
    exists j :: 0 <= j < |rows| && IsSeed(rows[j], r, s) && (Repeated(rows, j) || Preceded(rows, j, failed))
  }

  ghost predicate Preceded(rows: seq<StageRun>, j: nat, failed: nat)
    requires j < |rows|
  {
    exists l :: 0 <= l < j && IsRow(rows[l], rows[j].run, rows[j].stage) && rows[l].attempt == failed
  }

  // ---------------------------------------------------------------- tables in order

  ghost predicate OneSeed(rows: seq<StageRun>) {
    forall i, j | 0 <= i < j < |rows| && rows[i].cause == Seed && rows[j].cause == Seed :: rows[i].run != rows[j].run
  }

  ghost predicate GapFree(rows: seq<StageRun>, r: RunId, s: StageId) {
    forall a | 1 <= a <= MaxAttempt(rows, r, s) :: AttemptExists(rows, r, s, a)
  }

  /** As many rows as the highest attempt, and one more if the seed row repeats a number. */
  ghost predicate Tally(rows: seq<StageRun>, r: RunId, s: StageId) {
    Count(rows, r, s) == MaxAttempt(rows, r, s) + if SeedRepeats(rows, r, s) then 1 else 0
  }

  /** A seed row is numbered above all rows before it, or as one of them. */
  ghost predicate SeedFits(rows: seq<StageRun>, j: nat)
    requires j < |rows|
  {
    var row := rows[j];
    row.cause == Seed ==>
      row.attempt > MaxAttempt(rows[..j], row.run, row.stage) || AttemptExists(rows[..j], row.run, row.stage, row.attempt)
  }

  ghost predicate RetryFits(rows: seq<StageRun>, i: nat)
    requires i < |rows|
  {
    var row := rows[i];
    row.cause.Retry? ==>
      Count(rows[..i], row.run, row.stage)
      == row.cause.failed + if SeedBetween(rows[..i], row.run, row.stage, row.cause.failed) then 1 else 0
  }

  ghost predicate InOrder(rows: seq<StageRun>) {
    && OneSeed(rows)
    && (forall r, s :: GapFree(rows, r, s) && Tally(rows, r, s))
    && (forall i | 0 <= i < |rows| :: SeedFits(rows, i) && RetryFits(rows, i))
  }

  /** `f` is the last attempt but, at most, for a seed row that has come after it. */
  ghost predicate Near(rows: seq<StageRun>, r: RunId, s: StageId, f: nat) {
    || MaxAttempt(rows, r, s) == f
    || (MaxAttempt(rows, r, s) == f + 1
        && exists j :: 0 <= j < |rows| && IsSeed(rows[j], r, s) && rows[j].attempt == f + 1 && !Repeated(rows, j) && Preceded(rows, j, f))
  }

  /** `n` was read as the maximum and still is, or only a seed row has come since. */
  ghost predicate JustRead(rows: seq<StageRun>, r: RunId, s: StageId, n: nat) {
    || MaxAttempt(rows, r, s) == n
    || (MaxAttempt(rows, r, s) == n + 1
        && exists j :: 0 <= j < |rows| && IsSeed(rows[j], r, s) && rows[j].attempt == n + 1 && !Repeated(rows, j))
  }

  lemma OnlySeed(rows: seq<StageRun>, r: RunId, s: StageId, j: nat)
    requires OneSeed(rows) && j < |rows| && IsSeed(rows[j], r, s)
    ensures SeedRepeats(rows, r, s) <==> Repeated(rows, j)
  {
    forall i | 0 <= i < |rows| && IsSeed(rows[i], r, s)
      ensures i == j
    {
    }
  }

  /** How many rows the stage has when a relaunch is made. */
  lemma CountAtRetry(rows: seq<StageRun>, r: RunId, s: StageId, f: nat)
    requires InOrder(rows) && Near(rows, r, s, f)
    ensures Count(rows, r, s) == f + if SeedBetween(rows, r, s, f) then 1 else 0
  {
    assert Tally(rows, r, s);
    MaxAttemptBounds(rows, r, s);
    hide Tally;
    if MaxAttempt(rows, r, s) == f {
      if j :| 0 <= j < |rows| && IsSeed(rows[j], r, s) && Preceded(rows, j, f) {
        SeedAfterRepeats(rows, r, s, f, j);
      }
      assert SeedBetween(rows, r, s, f) <==> SeedRepeats(rows, r, s);
    } else {
      var j :| 0 <= j < |rows| && IsSeed(rows[j], r, s) && rows[j].attempt == f + 1 && !Repeated(rows, j) && Preceded(rows, j, f);
      OnlySeed(rows, r, s, j);
      assert SeedBetween(rows, r, s, f);
    }
  }

  /** A seed row after the highest attempt repeats a number. */
  lemma SeedAfterRepeats(rows: seq<StageRun>, r: RunId, s: StageId, f: nat, j: nat)
    requires InOrder(rows) && MaxAttempt(rows, r, s) == f && j < |rows| && IsSeed(rows[j], r, s) && Preceded(rows, j, f)
    ensures Repeated(rows, j)
  {
    assert SeedFits(rows, j);
    MaxAttemptBounds(rows, r, s);
    MaxAttemptBounds(rows[..j], r, s);
    var l :| 0 <= l < j && IsRow(rows[l], r, s) && rows[l].attempt == f;
    assert rows[..j][l] == rows[l];
    var k :| 0 <= k < j && rows[..j][k].run == r && rows[..j][k].stage == s && rows[..j][k].attempt == rows[j].attempt;
    assert rows[k] == rows[..j][k];
  }

  // ---------------------------------------------------------------- one more row

  lemma PrefixSame(rows: seq<StageRun>, x: StageRun)
    ensures forall i | 0 <= i <= |rows| :: (rows + [x])[..i] == rows[..i]
  {
  }

  lemma AppendExists(rows: seq<StageRun>, x: StageRun, r: RunId, s: StageId, a: nat)
    ensures AttemptExists(rows + [x], r, s, a) <==> AttemptExists(rows, r, s, a) || (IsRow(x, r, s) && x.attempt == a)
  {
    var all := rows + [x];
    assert forall i | 0 <= i < |rows| :: all[i] == rows[i];
    assert all[|rows|] == x;
  }

  lemma AppendRepeated(rows: seq<StageRun>, x: StageRun, j: nat)
    requires j < |rows|
    ensures Repeated(rows + [x], j) <==> Repeated(rows, j) || (IsRow(x, rows[j].run, rows[j].stage) && x.attempt == rows[j].attempt)
  {
    var all := rows + [x];
    assert forall i | 0 <= i < |rows| :: all[i] == rows[i];
    assert all[|rows|] == x;
  }

  lemma LastRepeated(rows: seq<StageRun>, x: StageRun)
    ensures Repeated(rows + [x], |rows|) <==> AttemptExists(rows, x.run, x.stage, x.attempt)
  {
    var all := rows + [x];
    assert forall i | 0 <= i < |rows| :: all[i] == rows[i];
    assert all[|rows|] == x;
  }

  /** Stages the row does not belong to keep everything. */
  lemma AppendElsewhere(rows: seq<StageRun>, x: StageRun, r: RunId, s: StageId)
    requires !IsRow(x, r, s)
    ensures GapFree(rows, r, s) ==> GapFree(rows + [x], r, s)
    ensures Tally(rows, r, s) ==> Tally(rows + [x], r, s)
    ensures forall f :: Near(rows, r, s, f) ==> Near(rows + [x], r, s, f)
    ensures forall n :: JustRead(rows, r, s, n) ==> JustRead(rows + [x], r, s, n)
  {
    var all := rows + [x];
    AppendMax(rows, x, r, s);
    AppendCount(rows, x, r, s);
    forall a
      ensures AttemptExists(all, r, s, a) <==> AttemptExists(rows, r, s, a)
    {
      AppendExists(rows, x, r, s, a);
    }
    forall j | 0 <= j < |rows|
      ensures all[j] == rows[j] && (IsRow(rows[j], r, s) ==> (Repeated(all, j) <==> Repeated(rows, j)))
      ensures forall f :: Preceded(all, j, f) == Preceded(rows, j, f)
    {
      AppendRepeated(rows, x, j);
    }
    assert all[|rows|] == x;
    hide Repeated, Preceded, MaxAttempt, AttemptExists;
    assert SeedRepeats(all, r, s) <==> SeedRepeats(rows, r, s);
  }

  lemma AppendGapFree(rows: seq<StageRun>, x: StageRun)
    requires GapFree(rows, x.run, x.stage) && x.attempt <= MaxAttempt(rows, x.run, x.stage) + 1
    ensures GapFree(rows + [x], x.run, x.stage)
  {
    AppendMax(rows, x, x.run, x.stage);
    forall a | 1 <= a <= MaxAttempt(rows + [x], x.run, x.stage)
      ensures AttemptExists(rows + [x], x.run, x.stage, a)
    {
      AppendExists(rows, x, x.run, x.stage, a);
    }
  }

  /** Old rows keep what depends on the rows before them. */
  lemma AppendFits(rows: seq<StageRun>, x: StageRun)
    requires forall i | 0 <= i < |rows| :: SeedFits(rows, i) && RetryFits(rows, i)
    requires SeedFits(rows + [x], |rows|) && RetryFits(rows + [x], |rows|)
    ensures forall i | 0 <= i < |rows + [x]| :: SeedFits(rows + [x], i) && RetryFits(rows + [x], i)
  {
    var all := rows + [x];
    PrefixSame(rows, x);
    forall i | 0 <= i < |rows|
      ensures SeedFits(all, i) && RetryFits(all, i)
    {
      assert all[i] == rows[i] && all[..i] == rows[..i];
      assert SeedFits(rows, i) && RetryFits(rows, i);
    }
  }

  lemma AppendOrder(rows: seq<StageRun>, x: StageRun)
    requires InOrder(rows) && OneSeed(rows + [x]) && GapFree(rows + [x], x.run, x.stage) && Tally(rows + [x], x.run, x.stage)
    requires SeedFits(rows + [x], |rows|) && RetryFits(rows + [x], |rows|)
    ensures InOrder(rows + [x])
  {
    AppendFits(rows, x);
    hide OneSeed, GapFree, Tally, SeedFits, RetryFits;
    forall r, s
      ensures GapFree(rows + [x], r, s) && Tally(rows + [x], r, s)
    {
      if !IsRow(x, r, s) {
        AppendElsewhere(rows, x, r, s);
      }
    }
  }

  // a row that the executor inserts

  lemma OwnTally(rows: seq<StageRun>, x: StageRun)
    requires InOrder(rows) && x.cause != Seed && 1 <= x.attempt && JustRead(rows, x.run, x.stage, x.attempt - 1)
    ensures Tally(rows + [x], x.run, x.stage) && MaxAttempt(rows + [x], x.run, x.stage) == x.attempt
  {
    var r, s, all := x.run, x.stage, rows + [x];
    assert Tally(rows, r, s);
    AppendMax(rows, x, r, s);
    AppendCount(rows, x, r, s);
    MaxAttemptBounds(rows, r, s);
    forall j | 0 <= j < |rows|
      ensures all[j] == rows[j]
      ensures Repeated(all, j) <==> Repeated(rows, j) || (IsRow(rows[j], r, s) && x.attempt == rows[j].attempt)
    {
      AppendRepeated(rows, x, j);
    }
    hide Repeated, InOrder;
    if MaxAttempt(rows, r, s) == x.attempt - 1 {
      assert SeedRepeats(all, r, s) <==> SeedRepeats(rows, r, s);
    } else {
      var j :| 0 <= j < |rows| && IsSeed(rows[j], r, s) && rows[j].attempt == x.attempt && !Repeated(rows, j);
      assert OneSeed(rows) by { InOrderOneSeed(rows); }
      OnlySeed(rows, r, s, j);
      assert IsSeed(all[j], r, s) && Repeated(all, j);
    }
  }

  lemma InOrderOneSeed(rows: seq<StageRun>)
    requires InOrder(rows)
    ensures OneSeed(rows)
  {
  }

  lemma OwnOrder(rows: seq<StageRun>, x: StageRun)
    requires InOrder(rows) && x.cause != Seed && 1 <= x.attempt && JustRead(rows, x.run, x.stage, x.attempt - 1)
    requires x.cause.Retry? ==> Near(rows, x.run, x.stage, x.cause.failed)
    ensures InOrder(rows + [x]) && Near(rows + [x], x.run, x.stage, x.attempt)
  {
    var all := rows + [x];
    OwnTally(rows, x);
    assert GapFree(rows, x.run, x.stage);
    AppendGapFree(rows, x);
    assert all[..|rows|] == rows && all[|rows|] == x;
    if x.cause.Retry? {
      CountAtRetry(rows, x.run, x.stage, x.cause.failed);
    }
    hide GapFree, Tally, InOrder;
    assert OneSeed(all) by { InOrderOneSeed(rows); }
    AppendOrder(rows, x);
  }

  // the seed row

  ghost predicate NoSeed(rows: seq<StageRun>, r: RunId) {
    forall j | 0 <= j < |rows| && rows[j].run == r :: rows[j].cause != Seed
  }

  lemma SeedTally(rows: seq<StageRun>, x: StageRun)
    requires InOrder(rows) && x.cause == Seed && NoSeed(rows, x.run) && 1 <= x.attempt <= MaxAttempt(rows, x.run, x.stage) + 1
    ensures Tally(rows + [x], x.run, x.stage)
    ensures Repeated(rows + [x], |rows|) <==> x.attempt <= MaxAttempt(rows, x.run, x.stage)
  {
    var r, s, all := x.run, x.stage, rows + [x];
    assert Tally(rows, r, s) && GapFree(rows, r, s);
    AppendMax(rows, x, r, s);
    AppendCount(rows, x, r, s);
    MaxAttemptBounds(rows, r, s);
    LastRepeated(rows, x);
    assert all[|rows|] == x && forall j | 0 <= j < |rows| :: all[j] == rows[j];
    hide Repeated, InOrder, GapFree;
    assert !SeedRepeats(rows, r, s);
    assert SeedRepeats(all, r, s) <==> Repeated(all, |rows|);
  }

  lemma SeedOrder(rows: seq<StageRun>, x: StageRun)
    requires InOrder(rows) && x.cause == Seed && NoSeed(rows, x.run) && 1 <= x.attempt <= MaxAttempt(rows, x.run, x.stage) + 1
    ensures InOrder(rows + [x])
  {
    var all := rows + [x];
    SeedTally(rows, x);
    assert GapFree(rows, x.run, x.stage);
    AppendGapFree(rows, x);
    assert all[..|rows|] == rows && all[|rows|] == x;
    LastRepeated(rows, x);
    SeedOne(rows, x);
    assert SeedFits(all, |rows|);
    hide GapFree, Tally, InOrder, OneSeed, SeedFits;
    AppendOrder(rows, x);
  }

  lemma SeedOne(rows: seq<StageRun>, x: StageRun)
    requires InOrder(rows) && NoSeed(rows, x.run)
    ensures OneSeed(rows + [x])
  {
    assert OneSeed(rows);
    hide InOrder;
  }

  lemma NoSeedNear(rows: seq<StageRun>, r: RunId, s: StageId, f: nat)
    requires NoSeed(rows, r)
    ensures Near(rows, r, s, f) ==> MaxAttempt(rows, r, s) == f
    ensures JustRead(rows, r, s, f) ==> MaxAttempt(rows, r, s) == f
  {
  }

  /** What the run's executor relies on survives the arrival of its seed row. */
  lemma SeedNear(rows: seq<StageRun>, x: StageRun, s: StageId, f: nat)
    requires InOrder(rows) && x.cause == Seed && NoSeed(rows, x.run) && 1 <= x.attempt <= MaxAttempt(rows, x.run, x.stage) + 1
    ensures JustRead(rows, x.run, s, f) ==> JustRead(rows + [x], x.run, s, f)
    ensures Near(rows, x.run, s, f) && AttemptExists(rows, x.run, s, f) ==> Near(rows + [x], x.run, s, f)
  {
    var all := rows + [x];
    if s == x.stage {
      NoSeedNear(rows, x.run, s, f);
      SeedTally(rows, x);
      AppendMax(rows, x, x.run, s);
      assert all[|rows|] == x && forall j | 0 <= j < |rows| :: all[j] == rows[j];
      hide InOrder, Repeated, MaxAttempt;
      if AttemptExists(rows, x.run, s, f) {
        var l :| 0 <= l < |rows| && rows[l].run == x.run && rows[l].stage == s && rows[l].attempt == f;
        assert IsRow(all[l], x.run, s);
        assert Preceded(all, |rows|, f);
      }
    } else {
      AppendElsewhere(rows, x, x.run, s);
    }
  }
}

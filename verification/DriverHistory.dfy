/** Driver rows and their append-only revisions: version-guarded writes that snapshot what they wrote. */
module DriverHistory {
  import opened Wrappers

  type Id = nat
  type Value = string

  /** The fields that an update may set, and that a revision keeps: the same ones. */
  datatype Field =
    | Name | Slug | Binary | DefaultArgs | ModelFlag | DirFlag | SessionNameFlag | PromptTransport | OutputFormat
    | OutputFormatFlag | PromptSendDelayMs | ProbeCommand | IssuePromptTemplate | QueuePromptTemplate | EnvVars
    | ExtraArgs | ContextLayout | IsEnabled | Notes

  type Fields = map<Field, Value>

  predicate Full(fields: Fields) {
    forall f: Field :: f in fields
  }

  datatype Row = Row(fields: Fields, version: nat)
  datatype Revision = Revision(number: nat, fields: Fields)
  datatype Db = Db(rows: map<Id, Row>, history: map<Id, seq<Revision>>)

  datatype Error = Conflict | RevisionNotFound

  function MaxNumber(revisions: seq<Revision>): nat {
    if revisions == [] then 0
    else if revisions[0].number > MaxNumber(revisions[1..]) then revisions[0].number
    else MaxNumber(revisions[1..])
  }

  function NextRevisionNumber(revisions: seq<Revision>): nat {
    MaxNumber(revisions) + 1
  }

  function Find(revisions: seq<Revision>, number: nat): Option<Fields> {
    if revisions == [] then None
    else if revisions[0].number == number then Some(revisions[0].fields)
    else Find(revisions[1..], number)
  }

  /** Revisions are numbered 1 to n in order, and the newest is the row. */
  ghost predicate GoodDriver(row: Row, revisions: seq<Revision>) {
    && Full(row.fields)
    && row.version == 1 + |revisions|
    && (forall i | 0 <= i < |revisions| :: revisions[i].number == i + 1 && Full(revisions[i].fields))
    && (revisions != [] ==> revisions[|revisions| - 1].fields == row.fields)
  }

  ghost predicate Good(db: Db) {
    && db.history.Keys == db.rows.Keys
    && forall id | id in db.rows :: GoodDriver(db.rows[id], db.history[id])
  }

  /** Nothing recorded is lost or changed. */
  ghost predicate Extends(before: Db, after: Db) {
    && before.history.Keys <= after.history.Keys
    && forall id | id in before.history :: before.history[id] <= after.history[id]
  }

  lemma ExtendsThrough(a: Db, b: Db, c: Db)
    requires Extends(a, b) && Extends(b, c)
    ensures Extends(a, c)
  {
  }

  ghost predicate Numbered(revisions: seq<Revision>, first: nat) {
    forall i | 0 <= i < |revisions| :: revisions[i].number == first + i
  }

  lemma {:induction false} MaxOfNumbered(revisions: seq<Revision>, first: nat)
    requires Numbered(revisions, first)
    ensures MaxNumber(revisions) == if revisions == [] then 0 else first + |revisions| - 1
  {
    if revisions != [] {
      MaxOfNumbered(revisions[1..], first + 1);
    }
  }

  lemma {:induction false} FindNumbered(revisions: seq<Revision>, first: nat, number: nat)
    requires Numbered(revisions, first)
    ensures Find(revisions, number) == if first <= number < first + |revisions| then Some(revisions[number - first].fields) else None
  {
    if revisions != [] {
      FindNumbered(revisions[1..], first + 1, number);
    }
  }

  // ---------------------------------------------------------------- one transaction, all at once

  function Written(db: Db, id: Id, patch: Fields): Db
    requires id in db.rows && id in db.history
  {
    var row := Row(db.rows[id].fields + patch, db.rows[id].version + 1);
    var revision := Revision(NextRevisionNumber(db.history[id]), row.fields);
    Db(db.rows[id := row], db.history[id := db.history[id] + [revision]])
  }

  function Update(db: Db, id: Id, version: nat, patch: Fields): Result<Db, Error> {
    if id in db.rows && id in db.history && db.rows[id].version == version then Ok(Written(db, id, patch)) else Err(Conflict)
  }

  function Revert(db: Db, id: Id, version: nat, number: nat): Result<Db, Error> {
    if id !in db.history || Find(db.history[id], number).None? then Err(RevisionNotFound)
    else Update(db, id, version, Find(db.history[id], number).value)
  }

  /** A write keeps the history good: one more revision, numbered next, equal to the new row. */
  lemma WrittenGood(db: Db, id: Id, patch: Fields)
    requires Good(db) && id in db.rows
    ensures Good(Written(db, id, patch)) && Extends(db, Written(db, id, patch))
    ensures Written(db, id, patch).history[id] == db.history[id] + [Revision(db.rows[id].version, db.rows[id].fields + patch)]
  {
    MaxOfNumbered(db.history[id], 1);
    var after := Written(db, id, patch);
    assert GoodDriver(after.rows[id], after.history[id]);
  }

  /** A revision is found exactly by the numbers below the version, and what it holds is what the row held
      right after the write that made it. */
  lemma FoundIff(db: Db, id: Id, number: nat)
    requires Good(db) && id in db.rows
    ensures Find(db.history[id], number).Some? <==> 1 <= number < db.rows[id].version
    ensures Find(db.history[id], number).Some? ==> Find(db.history[id], number).value == db.history[id][number - 1].fields
    ensures db.rows[id].version > 1 ==> Find(db.history[id], db.rows[id].version - 1) == Some(db.rows[id].fields)
  {
    FindNumbered(db.history[id], 1, number);
    FindNumbered(db.history[id], 1, db.rows[id].version - 1);
  }

  lemma RevertWrites(db: Db, id: Id, number: nat)
    requires Good(db) && id in db.rows && 1 <= number < db.rows[id].version
    ensures
      var r := Revert(db, id, db.rows[id].version, number);
      var row := Row(db.history[id][number - 1].fields, db.rows[id].version + 1);
      && r.Ok? && Good(r.value) && Extends(db, r.value)
      && r.value.rows == db.rows[id := row]
      && r.value.history == db.history[id := db.history[id] + [Revision(db.rows[id].version, row.fields)]]
  {
    FoundIff(db, id, number);
    var target := db.history[id][number - 1].fields;
    assert db.rows[id].fields + target == target;
    WrittenGood(db, id, target);
  }

  /** Going back to revision k and then to what was the newest restores every field: reverts lose nothing. */
  lemma RevertRoundTrip(db: Db, id: Id, k: nat)
    requires Good(db) && id in db.rows && 1 <= k < db.rows[id].version
    ensures
      var v := db.rows[id].version;
      var once := Revert(db, id, v, k);
      once.Ok?
      && var twice := Revert(once.value, id, v + 1, v - 1);
         twice.Ok? && Extends(db, twice.value)
         && twice.value.rows == db.rows[id := Row(db.rows[id].fields, v + 2)]
         && id in twice.value.history && |twice.value.history[id]| == |db.history[id]| + 2
  {
    hide Good, Revert, Extends, Full, GoodDriver;
    var v := db.rows[id].version;
    RevertWrites(db, id, k);
    NewestIsRow(db, id);
    var once := Revert(db, id, v, k).value;
    RevertLatestBack(db, once, id);
    ExtendsThrough(db, once, Revert(once, id, v + 1, v - 1).value);
  }

  /** From one revision later, reverting to what was the newest. */
  lemma RevertLatestBack(db: Db, once: Db, id: Id)
    requires id in db.rows && id in db.history && db.rows[id].version == 1 + |db.history[id]|
    requires db.history[id] != [] && db.history[id][|db.history[id]| - 1].fields == db.rows[id].fields
    requires Good(once) && id in once.rows && id in once.history
    requires once.rows == db.rows[id := once.rows[id]] && once.rows[id].version == db.rows[id].version + 1
    requires |once.history[id]| == |db.history[id]| + 1 && db.history[id] <= once.history[id]
    ensures
      var v := db.rows[id].version;
      var twice := Revert(once, id, v + 1, v - 1);
      && twice.Ok? && Extends(once, twice.value)
      && twice.value.rows == db.rows[id := Row(db.rows[id].fields, v + 2)]
      && id in twice.value.history && |twice.value.history[id]| == |db.history[id]| + 2
  {
    hide Good, Revert, Extends, Full, GoodDriver;
    var v := db.rows[id].version;
    RevertWrites(once, id, v - 1);
    assert once.history[id][v - 2] == db.history[id][v - 2];
  }

  lemma NewestIsRow(db: Db, id: Id)
    requires Good(db) && id in db.rows
    ensures id in db.history && db.rows[id].version == 1 + |db.history[id]|
    ensures db.history[id] != [] ==> db.history[id][|db.history[id]| - 1].fields == db.rows[id].fields
  {
  }

  // ---------------------------------------------------------------- the service, one caller at a time

  class DriverService {
    var rows: map<Id, Row>
    var history: map<Id, seq<Revision>>

    ghost function Contents(): Db
      reads this
    {
      Db(rows, history)
    }

    constructor ()
      ensures Contents() == Db(map[], map[]) && Good(Contents())
    {
      rows, history := map[], map[];
    }

    /** A new driver starts at version 1 and is not snapshotted. */
    method Create(id: Id, fields: Fields)
      requires Good(Contents()) && id !in rows && Full(fields)
      modifies this
      ensures rows == old(rows)[id := Row(fields, 1)] && history == old(history)[id := []]
      ensures Good(Contents()) && Extends(old(Contents()), Contents())
    {
      rows := rows[id := Row(fields, 1)];
      history := history[id := []];
    }

    method UpdateDriver(id: Id, version: nat, data: Fields) returns (r: Result<Row, Error>)
      requires Good(Contents())
      modifies this
      ensures Good(Contents()) && Extends(old(Contents()), Contents())
      ensures r.Ok? <==> id in old(rows) && old(rows)[id].version == version
      ensures r.Err? ==> r.error == Conflict && Contents() == old(Contents())
      ensures r.Ok? ==> r.value == Row(old(rows)[id].fields + data, version + 1)
                        && Contents() == Written(old(Contents()), id, data)
      ensures r.Ok? ==>
        && rows == old(rows)[id := r.value]
        && history == old(history)[id := old(history)[id] + [Revision(version, r.value.fields)]]
    {
      if id !in rows || rows[id].version != version {
        return Err(Conflict);
      }
      WrittenGood(Contents(), id, data);
      var row := Row(rows[id].fields + data, version + 1);
      rows := rows[id := row];
      Snapshot(id, row);
      return Ok(row);
    }

    method Snapshot(id: Id, row: Row)
      requires id in history
      modifies this`history
      ensures history == old(history)[id := old(history)[id] + [Revision(NextRevisionNumber(old(history)[id]), row.fields)]]
    {
      history := history[id := history[id] + [Revision(NextRevisionNumber(history[id]), row.fields)]];
    }

    method RevertToRevision(id: Id, version: nat, number: nat) returns (r: Result<Row, Error>)
      requires Good(Contents())
      modifies this
      ensures Good(Contents()) && Extends(old(Contents()), Contents())
      ensures r.Err? ==> Contents() == old(Contents())
      ensures r == if id !in old(rows) || !(1 <= number < old(rows)[id].version) then Err(RevisionNotFound)
                   else if old(rows)[id].version != version then Err(Conflict)
                   else Ok(Row(old(history)[id][number - 1].fields, version + 1))
      ensures r.Ok? ==> Ok(Contents()) == Revert(old(Contents()), id, version, number)
    {
      hide Full, MaxNumber, Find, GoodDriver;
      if id !in rows {
        return Err(RevisionNotFound);
      }
      FoundIff(Contents(), id, number);
      var target := Find(history[id], number);
      if target.None? {
        return Err(RevisionNotFound);
      }
      if rows[id].version != version {
        return Err(Conflict);
      }
      RevertWrites(Contents(), id, number);
      var row := Row(target.value, version + 1);
      assert rows[id].fields + target.value == target.value;
      rows := rows[id := row];
      Snapshot(id, row);
      return Ok(row);
    }
  }
}

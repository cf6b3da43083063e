/**
 Transactions on the driver tables whose statements interleave: the row lock makes every commit one atomic
 update or revert.
 */
module DriverTransactions {
  import opened Wrappers
  import opened DriverHistory

  type Tx = nat

  /** What a transaction was asked to do. */
  datatype Request = DoUpdate(patch: Fields) | DoRevert(number: nat)

  /** Where a transaction is. The update statement takes the row's lock, which only the end of the
      transaction gives back; until then its writes are its own. */
  datatype Pc =
    | Read(id: Id, version: nat, number: nat)
    | Guarded(id: Id, version: nat, request: Request, patch: Fields)
    | Snapshotting(id: Id, version: nat, request: Request, row: Row)
    | Committing(id: Id, version: nat, request: Request, row: Row, revision: Revision)

  datatype State = State(db: Db, locks: map<Id, Tx>, txs: map<Tx, Pc>)

  datatype Event =
    | Insert(id: Id, fields: Fields)
    | Begin(t: Tx, id: Id, version: nat, request: Request)
    | Act(t: Tx)
    | Rollback(t: Tx)

  function Unlock(locks: map<Id, Tx>, t: Tx): map<Id, Tx> {
    map id | id in locks && locks[id] != t :: locks[id]
  }

  function End(s: State, t: Tx): State {
    s.(locks := Unlock(s.locks, t), txs := s.txs - {t})
  }

  function Goto(s: State, t: Tx, pc: Pc): State {
    s.(txs := s.txs[t := pc])
  }

  /** One statement. A guarded update waits for the row's lock and then looks at the row again. */
  function ActStep(s: State, t: Tx): State
    requires t in s.txs
  {
    match s.txs[t]
    case Read(id, version, number) =>
      var target := if id in s.db.history then Find(s.db.history[id], number) else None;
      if target.None? then End(s, t) else Goto(s, t, Guarded(id, version, DoRevert(number), target.value))
    case Guarded(id, version, request, patch) =>
      if id in s.locks then s
      else if id !in s.db.rows || s.db.rows[id].version != version then End(s, t)
      else
        var row := Row(s.db.rows[id].fields + patch, version + 1);
        s.(locks := s.locks[id := t], txs := s.txs[t := Snapshotting(id, version, request, row)])
    case Snapshotting(id, version, request, row) =>
      if id !in s.db.history then End(s, t)
      else Goto(s, t, Committing(id, version, request, row, Revision(NextRevisionNumber(s.db.history[id]), row.fields)))
    case Committing(id, version, request, row, revision) =>
      if id !in s.db.history || id !in s.db.rows then End(s, t)
      else End(s.(db := Db(s.db.rows[id := row], s.db.history[id := s.db.history[id] + [revision]])), t)
  }

  function Next(s: State, e: Event): State {
    match e
    case Insert(id, fields) =>
      if id in s.db.rows || !Full(fields) then s
      else s.(db := Db(s.db.rows[id := Row(fields, 1)], s.db.history[id := []]))
    case Begin(t, id, version, request) =>
      if t in s.txs then s
      else
        Goto(s, t, match request
                   case DoUpdate(patch) => Guarded(id, version, request, patch)
                   case DoRevert(number) => Read(id, version, number))
    case Act(t) => if t in s.txs then ActStep(s, t) else s
    case Rollback(t) => if t in s.txs then End(s, t) else s
  }

  function Run(s: State, events: seq<Event>): State
    decreases |events|
  {
    if events == [] then s else Run(Next(s, events[0]), events[1..])
  }

  /** What a request writes, on a given database: for a revert, the revision as recorded there. */
  function PatchOf(db: Db, id: Id, request: Request): Option<Fields> {
    match request
    case DoUpdate(patch) => Some(patch)
    case DoRevert(number) => if id in db.history then Find(db.history[id], number) else None
  }

  /** The holder of the lock is about to write its request on the row as it is. */
  ghost predicate Ready(s: State, t: Tx, id: Id, version: nat, request: Request, row: Row) {
    && id in s.locks && s.locks[id] == t
    && id in s.db.rows && id in s.db.history
    && s.db.rows[id].version == version
    && PatchOf(s.db, id, request).Some?
    && row == Row(s.db.rows[id].fields + PatchOf(s.db, id, request).value, version + 1)
  }

  ghost predicate TxInv(s: State, t: Tx, pc: Pc) {
    match pc
    case Read(_, _, _) => true
    case Guarded(id, _, request, patch) => PatchOf(s.db, id, request) == Some(patch)
    case Snapshotting(id, version, request, row) => Ready(s, t, id, version, request, row)
    case Committing(id, version, request, row, revision) =>
      Ready(s, t, id, version, request, row) && revision == Revision(NextRevisionNumber(s.db.history[id]), row.fields)
  }

  ghost predicate Inv(s: State) {
    Good(s.db) && forall t | t in s.txs :: TxInv(s, t, s.txs[t])
  }

  /** A transaction's request on the committed database, all at once. */
  function Atomic(db: Db, id: Id, version: nat, request: Request): Result<Db, Error> {
    match request
    case DoUpdate(patch) => Update(db, id, version, patch)
    case DoRevert(number) => Revert(db, id, version, number)
  }

  lemma {:induction false} FindAppend(a: seq<Revision>, b: seq<Revision>, number: nat)
    ensures Find(a, number).Some? ==> Find(a + b, number) == Find(a, number)
  {
    if a != [] && a[0].number != number {
      assert (a + b)[1..] == a[1..] + b;
      FindAppend(a[1..], b, number);
    }
  }

  /** A recorded revision reads the same for ever. */
  lemma PatchStays(before: Db, after: Db, id: Id, request: Request)
    requires Extends(before, after)
    ensures PatchOf(before, id, request).Some? ==> PatchOf(after, id, request) == PatchOf(before, id, request)
  {
    if request.DoRevert? && id in before.history {
      var a, b := before.history[id], after.history[id];
      assert b == a + b[|a|..];
      FindAppend(a, b[|a|..], request.number);
    }
  }

  /** A transaction whose lock and locked row are left alone. */
  lemma OthersKeep(s: State, s': State, t: Tx, pc: Pc)
    requires TxInv(s, t, pc) && Extends(s.db, s'.db)
    requires forall id | id in s.locks && s.locks[id] == t :: id in s'.locks && s'.locks[id] == t
    requires forall id | id in s.locks && s.locks[id] == t && id in s.db.rows && id in s.db.history ::
      id in s'.db.rows && id in s'.db.history && s'.db.rows[id] == s.db.rows[id] && s'.db.history[id] == s.db.history[id]
    ensures TxInv(s', t, pc)
  {
    if !pc.Read? {
      PatchStays(s.db, s'.db, pc.id, pc.request);
    }
  }

  lemma EndKeeps(s: State, t: Tx, t': Tx)
    requires t' in s.txs && t' != t && TxInv(s, t', s.txs[t'])
    ensures t' in End(s, t).txs && TxInv(End(s, t), t', s.txs[t'])
  {
    OthersKeep(s, End(s, t), t', s.txs[t']);
  }

  lemma EndInv(s: State, t: Tx)
    requires Inv(s) && t in s.txs
    ensures Inv(End(s, t))
  {
    forall t' | t' in End(s, t).txs
      ensures TxInv(End(s, t), t', s.txs[t'])
    {
      EndKeeps(s, t, t');
    }
  }

  /** A step that leaves the database alone and may take a free lock. */
  lemma MoveInv(s: State, s': State, t: Tx, pc: Pc)
    requires Inv(s) && s'.db == s.db && s'.txs == s.txs[t := pc]
    requires s'.locks == s.locks || exists id: Id :: id !in s.locks && s'.locks == s.locks[id := t]
    requires TxInv(s', t, pc)
    ensures Inv(s')
  {
    forall t' | t' in s'.txs
      ensures TxInv(s', t', s'.txs[t'])
    {
      if t' != t {
        OthersKeep(s, s', t', s.txs[t']);
      }
    }
  }

  lemma CommitInv(s: State, t: Tx)
    requires Inv(s) && t in s.txs && s.txs[t].Committing?
    ensures
      var s' := ActStep(s, t);
      var pc := s.txs[t];
      && Inv(s') && Extends(s.db, s'.db)
      && Atomic(s.db, pc.id, pc.version, pc.request) == Ok(s'.db)
  {
    var pc := s.txs[t];
    var patch := PatchOf(s.db, pc.id, pc.request).value;
    var s' := ActStep(s, t);
    CommitWrites(s, t);
    WrittenGood(s.db, pc.id, patch);
    forall t' | t' in s'.txs
      ensures TxInv(s', t', s'.txs[t'])
    {
      OthersKeep(s, s', t', s.txs[t']);
    }
  }

  lemma CommitWrites(s: State, t: Tx)
    requires Inv(s) && t in s.txs && s.txs[t].Committing?
    ensures
      var pc := s.txs[t];
      var s' := ActStep(s, t);
      && pc.id in s.db.rows && pc.id in s.db.history && PatchOf(s.db, pc.id, pc.request).Some?
      && s'.db == Written(s.db, pc.id, PatchOf(s.db, pc.id, pc.request).value)
      && s'.locks == Unlock(s.locks, t) && s'.txs == s.txs - {t}
      && Atomic(s.db, pc.id, pc.version, pc.request) == Ok(s'.db)
  {
  }

  lemma InsertInv(s: State, id: Id, fields: Fields)
    requires Inv(s)
    ensures Inv(Next(s, Insert(id, fields))) && Extends(s.db, Next(s, Insert(id, fields)).db)
  {
    var s' := Next(s, Insert(id, fields));
    forall t | t in s'.txs
      ensures TxInv(s', t, s'.txs[t])
    {
      OthersKeep(s, s', t, s.txs[t]);
    }
  }

  lemma ActInv(s: State, t: Tx)
    requires Inv(s) && t in s.txs && !s.txs[t].Committing?
    ensures Inv(ActStep(s, t)) && ActStep(s, t).db == s.db
  {
    hide GoodDriver;
    var s' := ActStep(s, t);
    if t !in s'.txs {
      EndInv(s, t);
    } else {
      MoveInv(s, s', t, s'.txs[t]);
    }
  }

  predicate Commits(s: State, e: Event) {
    e.Act? && e.t in s.txs && s.txs[e.t].Committing?
  }

  /** Each commit is its request carried out at once on the database as it is at that moment, the version
      it was guarded by included; nothing else but a new driver changes the database. */
  lemma InvStep(s: State, e: Event)
    requires Inv(s)
    ensures Inv(Next(s, e)) && Extends(s.db, Next(s, e).db)
    ensures Commits(s, e) ==>
      var pc := s.txs[e.t];
      Atomic(s.db, pc.id, pc.version, pc.request) == Ok(Next(s, e).db)
    ensures !Commits(s, e) && !e.Insert? ==> Next(s, e).db == s.db
  {
    hide Good;
    match e {
      case Insert(id, fields) => InsertInv(s, id, fields);
      case Begin(t, _, _, _) =>
        if t !in s.txs {
          MoveInv(s, Next(s, e), t, Next(s, e).txs[t]);
        }
      case Act(t) =>
        if t in s.txs {
          if s.txs[t].Committing? {
            CommitInv(s, t);
          } else {
            ActInv(s, t);
          }
        }
      case Rollback(t) =>
        if t in s.txs {
          EndInv(s, t);
        }
    }
  }

  /** The database events, one after the other: each committed request at its commit, each new driver. */
  datatype Operation = Created(id: Id, fields: Fields) | Done(id: Id, version: nat, request: Request)

  function Operations(s: State, events: seq<Event>): seq<Operation>
    decreases |events|
  {
    if events == [] then []
    else
      (if Commits(s, events[0]) then
         var pc := s.txs[events[0].t]; [Done(pc.id, pc.version, pc.request)]
       else if events[0].Insert? && events[0].id !in s.db.rows && Full(events[0].fields) then
         [Created(events[0].id, events[0].fields)]
       else [])
      + Operations(Next(s, events[0]), events[1..])
  }

  /** The same operations with nothing interleaved; an operation that cannot be done stops it. */
  function Replay(db: Db, operations: seq<Operation>): Result<Db, Error>
    decreases |operations|
  {
    if operations == [] then Ok(db)
    else
      match operations[0]
      case Created(id, fields) =>
        Replay(Db(db.rows[id := Row(fields, 1)], db.history[id := []]), operations[1..])
      case Done(id, version, request) =>
        var after := Atomic(db, id, version, request);
        if after.Err? then after else Replay(after.value, operations[1..])
  }

  /** Over every interleaving: histories stay good and only grow, and the database is what the committed
      requests give when carried out one at a time in commit order. */
  lemma {:induction false} Serializable(s: State, events: seq<Event>)
    requires Inv(s)
    ensures Good(Run(s, events).db) && Extends(s.db, Run(s, events).db)
    ensures Replay(s.db, Operations(s, events)) == Ok(Run(s, events).db)
    decreases |events|
  {
    if events != [] {
      hide Good, Extends, TxInv;
      var s' := Next(s, events[0]);
      InvStep(s, events[0]);
      Serializable(s', events[1..]);
      ExtendsThrough(s.db, s'.db, Run(s, events).db);
      OperationStep(s, events[0], Operations(s', events[1..]));
    }
  }

  lemma OperationStep(s: State, e: Event, rest: seq<Operation>)
    requires Inv(s)
    ensures
      var first := if Commits(s, e) then var pc := s.txs[e.t]; [Done(pc.id, pc.version, pc.request)]
                   else if e.Insert? && e.id !in s.db.rows && Full(e.fields) then [Created(e.id, e.fields)] else [];
      Replay(s.db, first + rest) == Replay(Next(s, e).db, rest)
  {
    InvStep(s, e);
    hide Inv, Extends, Atomic, TxInv, Good;
    assert [] + rest == rest;
    assert forall op: Operation :: ([op] + rest)[1..] == rest;
  }
}

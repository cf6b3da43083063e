/**
 Epic auto-close under concurrency: any number of operators close issues, and each closing
 climbs towards the root by optimistic version checks with one retry. Every awaited read and
 every conditional write is a step of its own.
 */
module EpicClose {
  import opened Wrappers

  type Id = nat

  datatype Issue = Issue(parent: Option<Id>, closed: bool, version: nat)

  /** Where a closer is suspended. `Load` and `Save` are the operator's own close; from `Climb` on
      it is maybeAutoCloseParent, `again` marking the second attempt. `Raced` is the warning that
      both attempts lost. */
  datatype Pc =
    | Load(id: Id, expected: nat)
    | Save(id: Id, expected: nat)
    | Climb(child: Id, depth: nat)
    | ReadParent(p: Id, depth: nat, again: bool)
    | CountOpen(p: Id, v: nat, depth: nat, again: bool)
    | SaveParent(p: Id, v: nat, depth: nat, again: bool)
    | Done
    | Raced

  /** `autoClosed` is the log of auto-close events. */
  datatype State = State(issues: map<Id, Issue>, closers: map<nat, Pc>, autoClosed: seq<Id>)

  datatype Event = Close(t: nat, id: Id, expected: nat) | Act(t: nat)

  predicate OpenChild(issues: map<Id, Issue>, p: Id, q: Id) {
    q in issues && issues[q].parent == Some(p) && !issues[q].closed
  }

  predicate HasOpenChild(issues: map<Id, Issue>, p: Id) {
    exists q :: q in issues && OpenChild(issues, p, q)
  }

  /** `UPDATE … SET is_closed, version = v + 1 WHERE id AND version = v`. */
  function SaveClosed(issues: map<Id, Issue>, id: Id, v: nat): map<Id, Issue> {
    if id in issues && issues[id].version == v
    then issues[id := issues[id].(closed := true, version := v + 1)] else issues
  }

  predicate Wins(issues: map<Id, Issue>, id: Id, v: nat) {
    id in issues && issues[id].version == v
  }

  function After(issues: map<Id, Issue>, pc: Pc): Pc {
    match pc
    case Load(id, v) => if Wins(issues, id, v) then Save(id, v) else Done
    case Save(id, v) => if Wins(issues, id, v) then Climb(id, 0) else Done
    case Climb(child, depth) =>
      if depth > 50 || child !in issues || issues[child].parent.None? then Done
      else ReadParent(issues[child].parent.value, depth, false)
    case ReadParent(p, depth, again) =>
      if p !in issues || issues[p].closed then Done else CountOpen(p, issues[p].version, depth, again)
    case CountOpen(p, v, depth, again) =>
      if HasOpenChild(issues, p) then Done else SaveParent(p, v, depth, again)
    case SaveParent(p, v, depth, again) =>
      if Wins(issues, p, v) then Climb(p, depth + 1)
      else if again then Raced else ReadParent(p, depth, true)
    case _ => pc
  }

  function Written(issues: map<Id, Issue>, pc: Pc): map<Id, Issue> {
    match pc
    case Save(id, v) => SaveClosed(issues, id, v)
    case SaveParent(p, v, _, _) => SaveClosed(issues, p, v)
    case _ => issues
  }

  function Next(s: State, e: Event): State {
    match e
    case Close(t, id, expected) => if t in s.closers then s else s.(closers := s.closers[t := Load(id, expected)])
    case Act(t) =>
      if t !in s.closers then s
      else
        var pc := s.closers[t];
        State(Written(s.issues, pc), s.closers[t := After(s.issues, pc)],
              if pc.SaveParent? && Wins(s.issues, pc.p, pc.v) then s.autoClosed + [pc.p] else s.autoClosed)
  }

  function Run(s: State, events: seq<Event>): State
    decreases |events|
  {
    if events == [] then s else Run(Next(s, events[0]), events[1..])
  }

  // ---------------------------------------------------------------- invariant

  /** A parent that ought to be closed: open, with children, none of them open. */
  predicate Waiting(issues: map<Id, Issue>, p: Id) {
    && p in issues && !issues[p].closed && !HasOpenChild(issues, p)
    && exists q :: q in issues && issues[q].parent == Some(p)
  }

  /** The closer is on its way to a check of `p` that will close it. */
  predicate Attends(issues: map<Id, Issue>, pc: Pc, p: Id) {
    || (pc.Climb? && pc.child in issues && issues[pc.child].parent == Some(p))
    || ((pc.ReadParent? || pc.CountOpen? || pc.SaveParent?) && pc.p == p)
  }

  /** `level` rises towards the root: the parent links form a forest of bounded height. */
  ghost predicate Forest(issues: map<Id, Issue>, level: Id -> nat) {
    forall q :: q in issues && issues[q].parent.Some? ==>
      issues[q].parent.value in issues && level(q) < level(issues[q].parent.value) <= 51
  }

  /** A version a closer has read is current exactly while the parent is still open; a second
      attempt only ever meets a closed parent. */
  ghost predicate CloserOk(issues: map<Id, Issue>, level: Id -> nat, pc: Pc) {
    && (pc.Climb? ==> pc.child in issues && issues[pc.child].closed && pc.depth <= level(pc.child))
    && (pc.ReadParent? || pc.CountOpen? || pc.SaveParent? ==> pc.p in issues && pc.depth < level(pc.p))
    && (pc.ReadParent? && pc.again ==> issues[pc.p].closed)
    && (pc.CountOpen? || pc.SaveParent? ==>
          && !pc.again && pc.v <= issues[pc.p].version
          && (issues[pc.p].closed <==> pc.v < issues[pc.p].version))
    && !pc.Raced?
  }

  ghost predicate Attended(s: State, p: Id) {
    exists t :: t in s.closers && Attends(s.issues, s.closers[t], p)
  }

  ghost predicate Inv(s: State, level: Id -> nat) {
    && Forest(s.issues, level)
    && (forall t :: t in s.closers ==> CloserOk(s.issues, level, s.closers[t]))
    && (forall p :: Waiting(s.issues, p) ==> Attended(s, p))
    && (forall i, j | 0 <= i < j < |s.autoClosed| :: s.autoClosed[i] != s.autoClosed[j])
    && (forall p :: p in s.autoClosed ==> p in s.issues && s.issues[p].closed)
  }

  // ---------------------------------------------------------------- steps

  /** A write closes one issue or does nothing; it never opens one. */
  lemma WriteShape(issues: map<Id, Issue>, pc: Pc)
    ensures var issues' := Written(issues, pc);
            && issues'.Keys == issues.Keys
            && forall q :: q in issues ==>
                 && issues'[q].parent == issues[q].parent
                 && issues[q].version <= issues'[q].version
                 && (issues'[q] == issues[q] || (issues'[q].closed && issues[q].version < issues'[q].version))
  {
  }

  lemma CloserStep(issues: map<Id, Issue>, level: Id -> nat, pc: Pc, other: Pc)
    requires Forest(issues, level) && CloserOk(issues, level, pc) && CloserOk(issues, level, other)
    ensures CloserOk(Written(issues, pc), level, After(issues, pc))
    ensures CloserOk(Written(issues, pc), level, other)
  {
    hide HasOpenChild;
  }

  /** The log: a step that closes an issue other than by the operator's own write adds that issue to it, and
      nothing else is ever added. */
  lemma LogStep(s: State, e: Event, p: Id)
    requires p in s.issues && !s.issues[p].closed
    ensures
      var s' := Next(s, e);
      p in s'.issues && s.autoClosed <= s'.autoClosed
      && (s'.issues[p].closed && !(e.t in s.closers && s.closers[e.t].Save?) ==> s'.autoClosed == s.autoClosed + [p])
      && (s'.autoClosed == s.autoClosed + [p] ==> s'.issues[p] == s.issues[p].(closed := true, version := s.issues[p].version + 1))
  {
    assert forall q :: (s.autoClosed + [q])[|s.autoClosed|] == q;
  }

  /** What became pending by a write is attended by the closer that wrote. */
  lemma WaitingStep(issues: map<Id, Issue>, level: Id -> nat, pc: Pc, p: Id)
    requires Forest(issues, level) && CloserOk(issues, level, pc)
    requires Waiting(Written(issues, pc), p)
    ensures Waiting(issues, p) || Attends(Written(issues, pc), After(issues, pc), p)
    ensures Waiting(issues, p) && Attends(issues, pc, p) ==> Attends(Written(issues, pc), After(issues, pc), p)
  {
    var issues' := Written(issues, pc);
    WriteShape(issues, pc);
    if HasOpenChild(issues, p) {
      var q :| q in issues && OpenChild(issues, p, q);
      assert !OpenChild(issues', p, q);
    }
  }

  lemma ActStep(s: State, level: Id -> nat, t: nat)
    requires Inv(s, level) && t in s.closers
    ensures Inv(Next(s, Act(t)), level)
  {
    var s', pc := Next(s, Act(t)), s.closers[t];
    WriteShape(s.issues, pc);
    forall u | u in s'.closers
      ensures CloserOk(s'.issues, level, s'.closers[u])
    {
      CloserStep(s.issues, level, pc, s.closers[u]);
    }
    forall p | Waiting(s'.issues, p)
      ensures Attended(s', p)
    {
      WaitingStep(s.issues, level, pc, p);
      if Attends(s'.issues, s'.closers[t], p) {
        assert t in s'.closers;
      } else {
        var u :| u in s.closers && Attends(s.issues, s.closers[u], p);
        assert Attends(s'.issues, s'.closers[u], p);
      }
    }
    hide Waiting, CloserOk, Attended;
    AutoLog(s, level, t);
  }

  /** An auto-close wins only against an open parent, so no parent enters the log twice. */
  lemma AutoLog(s: State, level: Id -> nat, t: nat)
    requires Inv(s, level) && t in s.closers
    ensures var s' := Next(s, Act(t));
            && (forall i, j | 0 <= i < j < |s'.autoClosed| :: s'.autoClosed[i] != s'.autoClosed[j])
            && (forall p :: p in s'.autoClosed ==> p in s'.issues && s'.issues[p].closed)
  {
    assert CloserOk(s.issues, level, s.closers[t]);
    hide Waiting, Attended, Forest;
  }

  lemma CloseStep(s: State, level: Id -> nat, t: nat, id: Id, expected: nat)
    requires Inv(s, level)
    ensures Inv(Next(s, Close(t, id, expected)), level)
  {
    var s' := Next(s, Close(t, id, expected));
    forall p | Waiting(s'.issues, p)
      ensures Attended(s', p)
    {
      var u :| u in s.closers && Attends(s.issues, s.closers[u], p);
      assert Attends(s'.issues, s'.closers[u], p);
    }
    hide Waiting, Attended, Forest;
  }

  lemma {:induction false} InvAlways(s: State, level: Id -> nat, events: seq<Event>)
    requires Inv(s, level)
    ensures Inv(Run(s, events), level)
    decreases |events|
  {
    if events != [] {
      hide Inv, Next;
      match events[0] {
        case Close(t, id, expected) => CloseStep(s, level, t, id, expected);
        case Act(t) => ActOrStay(s, level, t);
      }
      InvAlways(Next(s, events[0]), level, events[1..]);
    }
  }

  lemma ActOrStay(s: State, level: Id -> nat, t: nat)
    requires Inv(s, level)
    ensures Inv(Next(s, Act(t)), level)
  {
    if t in s.closers {
      ActStep(s, level, t);
    }
  }

  // ---------------------------------------------------------------- what the protocol achieves

  ghost predicate Quiet(s: State) {
    forall t :: t in s.closers ==> s.closers[t].Done?
  }

  /** From a forest in which no parent is waiting to be closed: whenever all closers have finished,
      every parent whose children are all closed is closed; no parent was auto-closed twice; and no
      closer ever lost both its attempts. */
  lemma Quiescence(issues: map<Id, Issue>, level: Id -> nat, events: seq<Event>)
    requires Forest(issues, level) && forall p :: !Waiting(issues, p)
    ensures var s := Run(State(issues, map[], []), events);
            && (Quiet(s) ==> forall p :: !Waiting(s.issues, p))
            && (forall i, j | 0 <= i < j < |s.autoClosed| :: s.autoClosed[i] != s.autoClosed[j])
            && (forall t :: t in s.closers ==> !s.closers[t].Raced?)
  {
    InvAlways(State(issues, map[], []), level, events);
    var s := Run(State(issues, map[], []), events);
    if Quiet(s) {
      assert forall p :: Waiting(s.issues, p) ==> Attended(s, p);
    }
  }

  // ---------------------------------------------------------------- every closer finishes

  predicate Finished(pc: Pc) {
    pc.Done? || pc.Raced?
  }

  /** The steps a closer may still take: at most eight for each level up to the depth limit. */
  function StepsLeft(pc: Pc): nat {
    match pc
    case Load(_, _) => 411
    case Save(_, _) => 410
    case Climb(_, depth) => if depth > 50 then 1 else 8 * (51 - depth) + 1
    case ReadParent(_, depth, again) => if depth > 50 then 7 else 8 * (51 - depth) - if again then 3 else 0
    case CountOpen(_, _, depth, again) => if depth > 50 then 6 else 8 * (51 - depth) - 1 - if again then 3 else 0
    case SaveParent(_, _, depth, again) => if depth > 50 then 5 else 8 * (51 - depth) - 2 - if again then 3 else 0
    case _ => 0
  }

  /** Below the depth limit, as every closer is that started with a close. */
  predicate InDepth(pc: Pc) {
    (pc.Climb? ==> pc.depth <= 51) && (pc.ReadParent? || pc.CountOpen? || pc.SaveParent? ==> pc.depth <= 50)
  }

  lemma StepCounts(issues: map<Id, Issue>, pc: Pc)
    requires InDepth(pc) && !Finished(pc)
    ensures InDepth(After(issues, pc)) && StepsLeft(After(issues, pc)) < StepsLeft(pc)
  {
    hide HasOpenChild;
  }

  function Acts(events: seq<Event>, t: nat): nat {
    if events == [] then 0 else (if events[0] == Act(t) then 1 else 0) + Acts(events[1..], t)
  }

  /** In any graph, cycles included, and whatever the others do: a closer that is given as many steps as it has
      left, never more than 411, has finished. */
  lemma {:induction false} CloserFinishes(s: State, t: nat, events: seq<Event>)
    requires t in s.closers && InDepth(s.closers[t]) && Acts(events, t) >= StepsLeft(s.closers[t])
    ensures t in Run(s, events).closers && Finished(Run(s, events).closers[t])
    decreases |events|
  {
    var pc := s.closers[t];
    if events != [] {
      if events[0] == Act(t) && !Finished(pc) {
        StepCounts(s.issues, pc);
      }
      OthersWait(s, t, events[0]);
      CloserFinishes(Next(s, events[0]), t, events[1..]);
    }
  }

  lemma OthersWait(s: State, t: nat, e: Event)
    requires t in s.closers
    ensures t in Next(s, e).closers
    ensures Next(s, e).closers[t] == if e == Act(t) then After(s.issues, s.closers[t]) else s.closers[t]
  {
  }

  /** Whenever a closer that has begun is given enough steps, the forest has come to rest for it; once that is so
      for all, `Quiescence` applies: no parent is left waiting. */
  lemma AllClose(issues: map<Id, Issue>, level: Id -> nat, begun: seq<Event>, events: seq<Event>)
    requires Forest(issues, level) && forall p :: !Waiting(issues, p)
    requires forall e | e in events :: e.Act?
    requires forall t | t in Run(State(issues, map[], []), begun).closers :: Acts(events, t) >= 411
    ensures forall p :: !Waiting(Run(Run(State(issues, map[], []), begun), events).issues, p)
  {
    var s0 := State(issues, map[], []);
    var s := Run(s0, begun);
    DepthAlways(s0, begun);
    assert AllInDepth(s);
    forall t | t in s.closers
      ensures t in Run(s, events).closers && Finished(Run(s, events).closers[t])
    {
      assert InDepth(s.closers[t]) && StepsLeft(s.closers[t]) <= 411;
      CloserFinishes(s, t, events);
    }
    NoneAdded(s, events);
    RunConcat(s0, begun, events);
    hide Waiting, Forest;
    Quiescence(issues, level, begun + events);
  }

  ghost predicate AllInDepth(s: State) {
    forall t :: t in s.closers ==> InDepth(s.closers[t])
  }

  lemma {:induction false} DepthAlways(s: State, events: seq<Event>)
    requires AllInDepth(s)
    ensures AllInDepth(Run(s, events))
    decreases |events|
  {
    if events != [] {
      var s1 := Next(s, events[0]);
      forall t | t in s1.closers
        ensures InDepth(s1.closers[t])
      {
        if t in s.closers {
          OthersWait(s, t, events[0]);
          if !Finished(s.closers[t]) {
            StepCounts(s.issues, s.closers[t]);
          }
        }
      }
      DepthAlways(s1, events[1..]);
    }
  }

  lemma {:induction false} NoneAdded(s: State, events: seq<Event>)
    requires forall e | e in events :: e.Act?
    ensures Run(s, events).closers.Keys == s.closers.Keys
    decreases |events|
  {
    if events != [] {
      assert events[0] in events && forall e | e in events[1..] :: e in events;
      NoneAdded(Next(s, events[0]), events[1..]);
    }
  }

  lemma {:induction false} RunConcat(s: State, a: seq<Event>, b: seq<Event>)
    ensures Run(s, a + b) == Run(Run(s, a), b)
    decreases |a|
  {
    if a == [] {
      assert a + b == b;
    } else {
      assert (a + b)[1..] == a[1..] + b;
      RunConcat(Next(s, a[0]), a[1..], b);
    }
  }
}

/**
 The issue service's state changes over its mutable table, one caller at a time. The parent
 links may form any graph, cycles included.
 */
module IssueService {
  import opened Wrappers

  type Id = nat
  type ProjectId = nat
  type StateId = nat

  datatype Issue = Issue(project: ProjectId, parent: Option<Id>, state: StateId, closed: bool, version: nat)

  /** A state_changed event; `lastChild` is set on those written by auto-close. */
  datatype StateChanged = StateChanged(issue: Id, from: StateId, to: StateId, override: bool, lastChild: Option<Id>)

  datatype Error = NotFound | VersionConflict | StateNotFound | NoTerminalState

  /** The first active terminal and non-terminal state of each project, and which states are terminal. */
  datatype Catalog = Catalog(terminal: map<ProjectId, StateId>, initial: map<ProjectId, StateId>, isTerminal: map<StateId, bool>)

  type Issues = map<Id, Issue>

  const DEPTH_LIMIT := 50

  // ---------------------------------------------------------------- what auto-close does

  predicate HasOpenChild(issues: Issues, p: Id) {
    exists q :: q in issues && issues[q].parent == Some(p) && !issues[q].closed
  }

  function OpenCount(issues: Issues, p: Id): (n: nat)
    ensures n == 0 <==> !HasOpenChild(issues, p)
  {
    var open := set q | q in issues && issues[q].parent == Some(p) && !issues[q].closed;
    assert forall q :: q in issues && issues[q].parent == Some(p) && !issues[q].closed ==> q in open;
    assert open != {} ==> exists q :: q in open;
    |open|
  }

  /** The parent of `child` is there, open, without an open child, and can be closed. */
  predicate ParentCloses(catalog: Catalog, issues: Issues, child: Id) {
    && child in issues && issues[child].parent.Some?
    && var p := issues[child].parent.value;
       && p in issues && !issues[p].closed && !HasOpenChild(issues, p)
       && issues[p].project in catalog.terminal
  }

  function Closed(catalog: Catalog, issues: Issues, p: Id): Issues
    requires p in issues && issues[p].project in catalog.terminal
  {
    issues[p := issues[p].(state := catalog.terminal[issues[p].project], closed := true, version := issues[p].version + 1)]
  }

  /** The ancestors that closing `child` closes in turn. */
  function Chain(catalog: Catalog, issues: Issues, child: Id, depth: nat): (chain: seq<Id>)
    ensures depth <= DEPTH_LIMIT ==> |chain| <= DEPTH_LIMIT + 1 - depth
    ensures forall p :: p in chain ==> p in issues && issues[p].project in catalog.terminal
    decreases DEPTH_LIMIT + 1 - depth
  {
    if depth > DEPTH_LIMIT || !ParentCloses(catalog, issues, child) then []
    else
      var p := issues[child].parent.value;
      [p] + Chain(catalog, Closed(catalog, issues, p), p, depth + 1)
  }

  /** The table with exactly the given issues closed. */
  function CloseAll(catalog: Catalog, issues: Issues, chain: seq<Id>): Issues
    requires forall p :: p in chain ==> p in issues && issues[p].project in catalog.terminal
  {
    map q | q in issues :: if q in chain then Closed(catalog, issues, q)[q] else issues[q]
  }

  function AutoEvents(catalog: Catalog, issues: Issues, child: Id, chain: seq<Id>): seq<StateChanged>
    requires forall p :: p in chain ==> p in issues && issues[p].project in catalog.terminal
    decreases |chain|
  {
    if chain == [] then []
    else
      [StateChanged(chain[0], issues[chain[0]].state, catalog.terminal[issues[chain[0]].project], true, Some(child))]
      + AutoEvents(catalog, issues, chain[0], chain[1..])
  }

  // ---------------------------------------------------------------- the chain is what it should be

  /** `chain` climbs parent links from `child`. */
  predicate Climbs(issues: Issues, child: Id, chain: seq<Id>)
    decreases |chain|
  {
    chain == []
    || (child in issues && issues[child].parent == Some(chain[0]) && Climbs(issues, chain[0], chain[1..]))
  }

  lemma {:induction false} ClimbsSame(issues: Issues, issues': Issues, child: Id, chain: seq<Id>)
    requires issues.Keys == issues'.Keys && forall q :: q in issues ==> issues'[q].parent == issues[q].parent
    requires Climbs(issues', child, chain)
    ensures Climbs(issues, child, chain)
    decreases |chain|
  {
    if chain != [] {
      ClimbsSame(issues, issues', chain[0], chain[1..]);
    }
  }

  ghost predicate AllOpen(issues: Issues, chain: seq<Id>) {
    && (forall i | 0 <= i < |chain| :: chain[i] in issues && !issues[chain[i]].closed)
    && (forall i, j | 0 <= i < j < |chain| :: chain[i] != chain[j])
  }

  /** Each open child of a closed ancestor was itself closed just before. */
  ghost predicate OnlyBelow(issues: Issues, chain: seq<Id>) {
    forall i, q | 0 <= i < |chain| && q in issues && issues[q].parent == Some(chain[i]) && !issues[q].closed ::
      i > 0 && q == chain[i - 1]
  }

  function Last(child: Id, chain: seq<Id>): Id {
    if chain == [] then child else chain[|chain| - 1]
  }

  lemma ClosedParent(catalog: Catalog, issues: Issues, child: Id)
    requires ParentCloses(catalog, issues, child)
    ensures var p := issues[child].parent.value; var after := Closed(catalog, issues, p);
            && after.Keys == issues.Keys
            && (forall q :: q in issues && q != p ==> after[q] == issues[q])
            && (forall q :: q in issues ==> after[q].parent == issues[q].parent && after[q].project == issues[q].project)
  {
  }

  /** One more closed ancestor at the lower end of a path. */
  lemma ConsPath(catalog: Catalog, issues: Issues, child: Id, rest: seq<Id>)
    requires ParentCloses(catalog, issues, child)
    requires var p := issues[child].parent.value; var after := Closed(catalog, issues, p);
             Climbs(after, p, rest) && AllOpen(after, rest) && OnlyBelow(after, rest)
    ensures var chain := [issues[child].parent.value] + rest;
            Climbs(issues, child, chain) && AllOpen(issues, chain) && OnlyBelow(issues, chain) && chain[0] !in rest
  {
    var p := issues[child].parent.value;
    var after := Closed(catalog, issues, p);
    var chain := [p] + rest;
    ClosedParent(catalog, issues, child);
    ClimbsSame(issues, after, p, rest);
    assert chain[1..] == rest && after[p].closed;
    forall i | 0 <= i < |rest|
      ensures rest[i] != p && issues[rest[i]] == after[rest[i]]
    {
    }
    assert forall q :: q in issues && issues[q].parent == Some(p) ==> issues[q].closed;
    forall i, q | 0 < i < |chain| && q in issues && issues[q].parent == Some(chain[i]) && !issues[q].closed
      ensures q == chain[i - 1]
    {
      assert chain[i] == rest[i - 1];
      if q == p {
        assert after[p].parent == Some(rest[0]);
        assert i == 1;
      } else {
        assert after[q] == issues[q];
      }
    }
  }

  lemma ChainUnfolds(catalog: Catalog, issues: Issues, child: Id, depth: nat)
    requires depth <= DEPTH_LIMIT
    ensures ParentCloses(catalog, issues, child) ==>
      var p := issues[child].parent.value;
      Chain(catalog, issues, child, depth) == [p] + Chain(catalog, Closed(catalog, issues, p), p, depth + 1)
    ensures !ParentCloses(catalog, issues, child) ==> Chain(catalog, issues, child, depth) == []
  {
  }

  lemma {:induction false} ChainPath(catalog: Catalog, issues: Issues, child: Id, depth: nat)
    requires depth <= DEPTH_LIMIT + 1
    ensures
      var chain := Chain(catalog, issues, child, depth);
      Climbs(issues, child, chain) && AllOpen(issues, chain) && OnlyBelow(issues, chain)
    decreases DEPTH_LIMIT + 1 - depth
  {
    hide Climbs, AllOpen, OnlyBelow, Closed;
    NoChain(catalog, issues, child);
    if depth <= DEPTH_LIMIT && ParentCloses(catalog, issues, child) {
      hide ParentCloses, Chain;
      var p := issues[child].parent.value;
      ChainUnfolds(catalog, issues, child, depth);
      ChainPath(catalog, Closed(catalog, issues, p), p, depth + 1);
      ConsPath(catalog, issues, child, Chain(catalog, Closed(catalog, issues, p), p, depth + 1));
    }
  }

  lemma {:induction false} ChainStops(catalog: Catalog, issues: Issues, child: Id, depth: nat)
    requires depth <= DEPTH_LIMIT
    ensures
      var chain := Chain(catalog, issues, child, depth);
      && (|chain| == DEPTH_LIMIT + 1 - depth
          || !ParentCloses(catalog, CloseAll(catalog, issues, chain), Last(child, chain)))
    decreases DEPTH_LIMIT + 1 - depth
  {
    hide Climbs, AllOpen, OnlyBelow, Closed, CloseAll;
    NoChain(catalog, issues, child);
    ChainUnfolds(catalog, issues, child, depth);
    if ParentCloses(catalog, issues, child) {
      var p := issues[child].parent.value;
      var after := Closed(catalog, issues, p);
      var rest := Chain(catalog, after, p, depth + 1);
      if depth < DEPTH_LIMIT {
        hide ParentCloses, Chain;
        ChainStops(catalog, after, p, depth + 1);
        ChainPath(catalog, after, p, depth + 1);
        ConsPath(catalog, issues, child, rest);
        CloseAllStep(catalog, issues, p, rest);
      }
    }
  }

  /** From any parent graph: auto-close closes a path of at most 51 distinct open ancestors, each
      left without an open child, and stops only at an ancestor it may not close. */
  lemma ChainExact(catalog: Catalog, issues: Issues, child: Id, depth: nat)
    requires depth <= DEPTH_LIMIT
    ensures
      var chain := Chain(catalog, issues, child, depth);
      && Climbs(issues, child, chain) && AllOpen(issues, chain) && OnlyBelow(issues, chain)
      && |chain| <= 51 - depth
      && (|chain| == 51 - depth || !ParentCloses(catalog, CloseAll(catalog, issues, chain), Last(child, chain)))
  {
    ChainPath(catalog, issues, child, depth);
    ChainStops(catalog, issues, child, depth);
  }

  lemma NoChain(catalog: Catalog, issues: Issues, child: Id)
    ensures Climbs(issues, child, []) && AllOpen(issues, []) && OnlyBelow(issues, []) && CloseAll(catalog, issues, []) == issues
  {
    assert CloseAll(catalog, issues, []) == issues;
  }

  lemma CloseAllStep(catalog: Catalog, issues: Issues, p: Id, rest: seq<Id>)
    requires p in issues && issues[p].project in catalog.terminal && p !in rest
    requires forall q :: q in rest ==> q in issues && issues[q].project in catalog.terminal
    ensures CloseAll(catalog, Closed(catalog, issues, p), rest) == CloseAll(catalog, issues, [p] + rest)
  {
  }

  lemma {:induction false} AutoEventsSame(catalog: Catalog, issues: Issues, issues': Issues, child: Id, chain: seq<Id>)
    requires forall p :: p in chain ==> p in issues && issues[p].project in catalog.terminal
    requires forall p :: p in chain ==> p in issues' && issues'[p] == issues[p]
    ensures AutoEvents(catalog, issues, child, chain) == AutoEvents(catalog, issues', child, chain)
    decreases |chain|
  {
    if chain != [] {
      AutoEventsSame(catalog, issues, issues', chain[0], chain[1..]);
    }
  }

  lemma NoneCloses(catalog: Catalog, issues: Issues, child: Id, depth: nat)
    ensures !ParentCloses(catalog, issues, child) || depth > DEPTH_LIMIT ==>
      var chain := Chain(catalog, issues, child, depth);
      CloseAll(catalog, issues, chain) == issues && AutoEvents(catalog, issues, child, chain) == []
  {
    assert CloseAll(catalog, issues, []) == issues;
  }

  /** Closing the parent first and the rest of its chain after it is closing the whole chain. */
  lemma ChainStep(catalog: Catalog, issues: Issues, child: Id, depth: nat)
    requires depth <= DEPTH_LIMIT && ParentCloses(catalog, issues, child)
    ensures
      var p := issues[child].parent.value;
      var after := Closed(catalog, issues, p);
      var rest := Chain(catalog, after, p, depth + 1);
      var chain := Chain(catalog, issues, child, depth);
      && CloseAll(catalog, after, rest) == CloseAll(catalog, issues, chain)
      && [StateChanged(p, issues[p].state, catalog.terminal[issues[p].project], true, Some(child))]
           + AutoEvents(catalog, after, p, rest) == AutoEvents(catalog, issues, child, chain)
  {
    var p := issues[child].parent.value;
    var after := Closed(catalog, issues, p);
    var rest := Chain(catalog, after, p, depth + 1);
    var chain := Chain(catalog, issues, child, depth);
    assert chain == [p] + rest;
    if depth < DEPTH_LIMIT {
      ChainExact(catalog, after, p, depth + 1);
    }
    assert p !in rest;
    CloseAllStep(catalog, issues, p, rest);
    AutoEventsSame(catalog, issues, after, p, rest);
  }

  // ---------------------------------------------------------------- the writes

  /** What an auto-close does, field by field: each issue of the chain is closed in its project's terminal state
      at the next version and otherwise as it was, and every other issue is as it was. */
  ghost predicate ClosedExactly(catalog: Catalog, before: Issues, after: Issues, chain: seq<Id>) {
    && after.Keys == before.Keys
    && (forall p | p in chain ::
          && p in before && before[p].project in catalog.terminal && !before[p].closed
          && after[p] == Issue(before[p].project, before[p].parent, catalog.terminal[before[p].project], true, before[p].version + 1))
    && (forall q | q in before && q !in chain :: after[q] == before[q])
  }

  /** One event for each, from its old to its new state, naming the child that closed just before. */
  ghost predicate LoggedExactly(before: Issues, after: Issues, child: Id, chain: seq<Id>, log: seq<StateChanged>) {
    |log| == |chain| && forall i | 0 <= i < |chain| :: LoggedAt(before, after, child, chain, log, i)
  }

  predicate LoggedAt(before: Issues, after: Issues, child: Id, chain: seq<Id>, log: seq<StateChanged>, i: nat)
    requires i < |chain| == |log|
  {
    && chain[i] in before && chain[i] in after
    && log[i] == StateChanged(chain[i], before[chain[i]].state, after[chain[i]].state, true, Some(if i == 0 then child else chain[i - 1]))
  }

  /** A path of distinct open ancestors of the child, each with no other open child. */
  ghost predicate IsChain(issues: Issues, child: Id, chain: seq<Id>) {
    Climbs(issues, child, chain) && AllOpen(issues, chain) && OnlyBelow(issues, chain)
  }

  lemma CloseAllExactly(catalog: Catalog, issues: Issues, chain: seq<Id>)
    requires forall p :: p in chain ==> p in issues && issues[p].project in catalog.terminal && !issues[p].closed
    ensures ClosedExactly(catalog, issues, CloseAll(catalog, issues, chain), chain)
  {
  }

  lemma {:induction false} AutoEventsExactly(catalog: Catalog, issues: Issues, after: Issues, child: Id, chain: seq<Id>)
    requires forall p :: p in chain ==> p in issues && issues[p].project in catalog.terminal
    requires forall p :: p in chain ==> p in after && after[p].state == catalog.terminal[issues[p].project]
    ensures LoggedExactly(issues, after, child, chain, AutoEvents(catalog, issues, child, chain))
    decreases |chain|
  {
    if chain != [] {
      var log := AutoEvents(catalog, issues, child, chain);
      AutoEventsExactly(catalog, issues, after, chain[0], chain[1..]);
      assert log[1..] == AutoEvents(catalog, issues, chain[0], chain[1..]);
      forall i | 0 <= i < |chain|
        ensures LoggedAt(issues, after, child, chain, log, i)
      {
        if i > 0 {
          assert LoggedAt(issues, after, chain[0], chain[1..], log[1..], i - 1);
        }
      }
    }
  }

  /** The chain of a child, the table after closing it, and the events. */
  lemma AutoCloseExact(catalog: Catalog, issues: Issues, child: Id, depth: nat)
    ensures
      var chain := Chain(catalog, issues, child, depth);
      var after := CloseAll(catalog, issues, chain);
      && IsChain(issues, child, chain) && ClosedExactly(catalog, issues, after, chain)
      && LoggedExactly(issues, after, child, chain, AutoEvents(catalog, issues, child, chain))
  {
    var chain := Chain(catalog, issues, child, depth);
    var after := CloseAll(catalog, issues, chain);
    if depth <= DEPTH_LIMIT {
      ChainPath(catalog, issues, child, depth);
    } else {
      NoChain(catalog, issues, child);
    }
    assert forall p :: p in chain ==> !issues[p].closed;
    hide Chain, CloseAll, AutoEvents, Climbs, OnlyBelow, AllOpen;
    CloseAllExactly(catalog, issues, chain);
    AutoEventsExactly(catalog, issues, after, child, chain);
  }

  /** One versioned write of an issue's state, before auto-close. */
  function Moved(catalog: Catalog, issues: Issues, id: Id, to: StateId): Issues
    requires id in issues && to in catalog.isTerminal
  {
    issues[id := issues[id].(state := to, closed := catalog.isTerminal[to], version := issues[id].version + 1)]
  }

  /** The ancestors closed by moving an issue to a state. */
  function Follow(catalog: Catalog, issues: Issues, id: Id, to: StateId): (chain: seq<Id>)
    requires id in issues && to in catalog.isTerminal
    ensures forall p :: p in chain ==> p in issues && issues[p].project in catalog.terminal
  {
    if catalog.isTerminal[to] then Chain(catalog, Moved(catalog, issues, id, to), id, 0) else []
  }

  function AfterMove(catalog: Catalog, issues: Issues, id: Id, to: StateId): Issues
    requires id in issues && to in catalog.isTerminal
  {
    CloseAll(catalog, Moved(catalog, issues, id, to), Follow(catalog, issues, id, to))
  }

  function MoveEvents(catalog: Catalog, issues: Issues, id: Id, to: StateId, override: bool): seq<StateChanged>
    requires id in issues && to in catalog.isTerminal
  {
    [StateChanged(id, issues[id].state, to, override, None)]
    + AutoEvents(catalog, Moved(catalog, issues, id, to), id, Follow(catalog, issues, id, to))
  }

  /** A move, field by field: the issue is the one returned, and where the new state is terminal the finished
      ancestors are closed, starting from the table in which the issue has moved. */
  ghost predicate MovedExactly(catalog: Catalog, before: Issues, after: Issues, id: Id, moved: Issue, chain: seq<Id>) {
    && id in before && ClosedExactly(catalog, before[id := moved], after, chain)
    && IsChain(before[id := moved], id, chain) && (!moved.closed ==> chain == [])
  }

  lemma MoveExact(catalog: Catalog, issues: Issues, id: Id, to: StateId)
    requires id in issues && to in catalog.isTerminal
    ensures MovedExactly(catalog, issues, AfterMove(catalog, issues, id, to), id, Moved(catalog, issues, id, to)[id],
                         Follow(catalog, issues, id, to))
    ensures Moved(catalog, issues, id, to) == issues[id := Moved(catalog, issues, id, to)[id]]
  {
    var moved := Moved(catalog, issues, id, to);
    AutoCloseExact(catalog, moved, id, 0);
    NoChain(catalog, moved, id);
    CloseAllExactly(catalog, moved, []);
  }

  lemma MoveParts(catalog: Catalog, issues: Issues, id: Id, to: StateId, override: bool)
    requires id in issues && to in catalog.isTerminal
    ensures
      var moved := Moved(catalog, issues, id, to);
      var entry := StateChanged(id, issues[id].state, to, override, None);
      if catalog.isTerminal[to] then
        && AfterMove(catalog, issues, id, to) == CloseAll(catalog, moved, Chain(catalog, moved, id, 0))
        && MoveEvents(catalog, issues, id, to, override) == [entry] + AutoEvents(catalog, moved, id, Chain(catalog, moved, id, 0))
      else
        AfterMove(catalog, issues, id, to) == moved && MoveEvents(catalog, issues, id, to, override) == [entry]
  {
    NoChain(catalog, Moved(catalog, issues, id, to), id);
  }

  datatype Attempt = Closed_ | AlreadyClosed | HasOpen | Conflict

  class IssueService {
    const catalog: Catalog
    var issues: Issues
    var events: seq<StateChanged>

    constructor (catalog: Catalog, issues: Issues)
      ensures this.catalog == catalog && this.issues == issues && events == []
    {
      this.catalog := catalog;
      this.issues := issues;
      events := [];
    }

    method MaybeAutoCloseParent(child: Id, depth: nat)
      modifies this
      ensures issues == CloseAll(catalog, old(issues), Chain(catalog, old(issues), child, depth))
      ensures events == old(events) + AutoEvents(catalog, old(issues), child, Chain(catalog, old(issues), child, depth))
      ensures IsChain(old(issues), child, Chain(catalog, old(issues), child, depth))
      ensures ClosedExactly(catalog, old(issues), issues, Chain(catalog, old(issues), child, depth))
      ensures old(events) <= events
      ensures LoggedExactly(old(issues), issues, child, Chain(catalog, old(issues), child, depth), events[|old(events)|..])
      decreases DEPTH_LIMIT + 1 - depth, 1
    {
      AutoCloseExact(catalog, issues, child, depth);
      ghost var log := AutoEvents(catalog, issues, child, Chain(catalog, issues, child, depth));
      assert (events + log)[|events|..] == log;
      NoneCloses(catalog, issues, child, depth);
      if depth > DEPTH_LIMIT || child !in issues || issues[child].parent.None? {
        return;
      }
      var first := TryClose(child, depth);
      if first == Conflict {
        var second := TryClose(child, depth);
      }
    }

    /** The update is guarded by the version just read; only a missing terminal state can fail it here. */
    method TryClose(child: Id, depth: nat) returns (r: Attempt)
      requires depth <= DEPTH_LIMIT && child in issues && issues[child].parent.Some?
      modifies this
      ensures r == Closed_ <==> ParentCloses(catalog, old(issues), child)
      ensures r != Closed_ ==> issues == old(issues)
      ensures issues == CloseAll(catalog, old(issues), Chain(catalog, old(issues), child, depth))
      ensures events == old(events) + AutoEvents(catalog, old(issues), child, Chain(catalog, old(issues), child, depth))
      decreases DEPTH_LIMIT + 1 - depth, 0
    {
      hide Chain, CloseAll, AutoEvents, HasOpenChild;
      NoneCloses(catalog, issues, child, depth);
      var parentId := issues[child].parent.value;
      if parentId !in issues || issues[parentId].closed {
        return AlreadyClosed;
      }
      var parent := issues[parentId];
      if OpenCount(issues, parentId) > 0 {
        return HasOpen;
      }
      if parent.project !in catalog.terminal {
        return Conflict;
      }
      ChainStep(catalog, issues, child, depth);
      var terminal := catalog.terminal[parent.project];
      issues := issues[parentId := parent.(state := terminal, closed := true, version := parent.version + 1)];
      events := events + [StateChanged(parentId, parent.state, terminal, true, Some(child))];
      MaybeAutoCloseParent(parentId, depth + 1);
      return Closed_;
    }

    /** Moves the issue when it is there and has the expected version; then its finished ancestors close. */
    method StateOverride(id: Id, to: StateId, version: nat) returns (r: Result<Issue, Error>)
      modifies this
      ensures r.Err? ==> issues == old(issues) && events == old(events)
      ensures r == (if id !in old(issues) then Err(NotFound)
                    else if old(issues)[id].version != version then Err(VersionConflict)
                    else if to !in catalog.isTerminal then Err(StateNotFound)
                    else Ok(old(issues)[id].(state := to, closed := catalog.isTerminal[to], version := version + 1)))
      ensures r.Ok? ==> issues == AfterMove(catalog, old(issues), id, to)
      ensures r.Ok? ==> events == old(events) + MoveEvents(catalog, old(issues), id, to, true)
      ensures r.Ok? ==> old(events) + [StateChanged(id, old(issues)[id].state, to, true, None)] <= events
      ensures r.Ok? ==> MovedExactly(catalog, old(issues), issues, id, r.value, Follow(catalog, old(issues), id, to))
    {
      r := Move(id, to, version, true);
    }

    method Transition(id: Id, to: StateId, version: nat, project: ProjectId) returns (r: Result<Issue, Error>)
      modifies this
      ensures r.Err? ==> issues == old(issues) && events == old(events)
      ensures r == (if id !in old(issues) || old(issues)[id].project != project then Err(NotFound)
                    else if old(issues)[id].version != version then Err(VersionConflict)
                    else if to !in catalog.isTerminal then Err(StateNotFound)
                    else Ok(old(issues)[id].(state := to, closed := catalog.isTerminal[to], version := version + 1)))
      ensures r.Ok? ==> issues == AfterMove(catalog, old(issues), id, to)
      ensures r.Ok? ==> events == old(events) + MoveEvents(catalog, old(issues), id, to, false)
      ensures r.Ok? ==> old(events) + [StateChanged(id, old(issues)[id].state, to, false, None)] <= events
      ensures r.Ok? ==> MovedExactly(catalog, old(issues), issues, id, r.value, Follow(catalog, old(issues), id, to))
    {
      if id !in issues || issues[id].project != project {
        return Err(NotFound);
      }
      r := Move(id, to, version, false);
    }

    /** The body that the operator's two ways of moving an issue share. */
    method Move(id: Id, to: StateId, version: nat, override: bool) returns (r: Result<Issue, Error>)
      modifies this
      ensures r.Err? ==> issues == old(issues) && events == old(events)
      ensures r == (if id !in old(issues) then Err(NotFound)
                    else if old(issues)[id].version != version then Err(VersionConflict)
                    else if to !in catalog.isTerminal then Err(StateNotFound)
                    else Ok(old(issues)[id].(state := to, closed := catalog.isTerminal[to], version := version + 1)))
      ensures r.Ok? ==> issues == AfterMove(catalog, old(issues), id, to)
      ensures r.Ok? ==> events == old(events) + MoveEvents(catalog, old(issues), id, to, override)
      ensures r.Ok? ==> MovedExactly(catalog, old(issues), issues, id, r.value, Follow(catalog, old(issues), id, to))
    {
      if id !in issues {
        return Err(NotFound);
      }
      var current := issues[id];
      if current.version != version {
        return Err(VersionConflict);
      }
      if to !in catalog.isTerminal {
        return Err(StateNotFound);
      }
      var updated := current.(state := to, closed := catalog.isTerminal[to], version := version + 1);
      Apply(id, to, override, updated);
      return Ok(updated);
    }

    /** The write, its event, and what follows from it. */
    method Apply(id: Id, to: StateId, override: bool, updated: Issue)
      requires id in issues && to in catalog.isTerminal && Moved(catalog, issues, id, to) == issues[id := updated]
      modifies this
      ensures issues == AfterMove(catalog, old(issues), id, to)
      ensures events == old(events) + MoveEvents(catalog, old(issues), id, to, override)
      ensures MovedExactly(catalog, old(issues), issues, id, updated, Follow(catalog, old(issues), id, to))
    {
      hide ClosedExactly, LoggedExactly, IsChain, Chain, CloseAll, AutoEvents, MovedExactly, AfterMove, MoveEvents, Follow, Moved;
      MoveExact(catalog, issues, id, to);
      MoveParts(catalog, issues, id, to, override);
      assert Moved(catalog, issues, id, to)[id] == updated;
      events := events + [StateChanged(id, issues[id].state, to, override, None)];
      issues := issues[id := updated];
      if catalog.isTerminal[to] {
        MaybeAutoCloseParent(id, 0);
      }
    }

    /** Unless the move fails, the issue ends closed, and so do the ancestors that its closing finishes. */
    method Close(id: Id, version: nat) returns (r: Result<Issue, Error>)
      requires forall p :: p in catalog.terminal ==> catalog.terminal[p] in catalog.isTerminal && catalog.isTerminal[catalog.terminal[p]]
      modifies this
      ensures r.Err? ==> issues == old(issues) && events == old(events)
      ensures r.Err? <==> id !in old(issues) || old(issues)[id].project !in catalog.terminal || old(issues)[id].version != version
      ensures r.Err? ==> r.error == if id !in old(issues) then NotFound
                                    else if old(issues)[id].project !in catalog.terminal then NoTerminalState
                                    else VersionConflict
      ensures r.Ok? ==>
        old(events) + [StateChanged(id, old(issues)[id].state, catalog.terminal[old(issues)[id].project], true, None)] <= events
      ensures r.Ok? ==>
        var to := catalog.terminal[old(issues)[id].project];
        && id in issues && issues[id].closed && issues[id].state == to && issues[id].version == version + 1
        && issues == AfterMove(catalog, old(issues), id, to)
    {
      if id !in issues {
        return Err(NotFound);
      }
      if issues[id].project !in catalog.terminal {
        return Err(NoTerminalState);
      }
      var to := catalog.terminal[issues[id].project];
      ChainExact(catalog, Moved(catalog, issues, id, to), id, 0);
      r := StateOverride(id, to, version);
    }

    /** Reopening closes nobody: ancestors that auto-close closed stay closed. */
    method Reopen(id: Id, version: nat) returns (r: Result<Issue, Error>)
      requires forall p :: p in catalog.initial ==> catalog.initial[p] in catalog.isTerminal && !catalog.isTerminal[catalog.initial[p]]
      modifies this
      ensures r.Err? ==> issues == old(issues) && events == old(events)
      ensures r.Err? <==> id !in old(issues) || old(issues)[id].project !in catalog.initial || old(issues)[id].version != version
      ensures r.Err? ==> r.error == if id !in old(issues) then NotFound
                                    else if old(issues)[id].project !in catalog.initial then NoTerminalState
                                    else VersionConflict
      ensures r.Ok? ==>
        events == old(events) + [StateChanged(id, old(issues)[id].state, catalog.initial[old(issues)[id].project], true, None)]
      ensures r.Ok? ==>
        issues == old(issues)[id := old(issues)[id].(state := catalog.initial[old(issues)[id].project], closed := false, version := version + 1)]
    {
      if id !in issues {
        return Err(NotFound);
      }
      if issues[id].project !in catalog.initial {
        return Err(NoTerminalState);
      }
      r := StateOverride(id, catalog.initial[issues[id].project], version);
    }
  }

  /** An operator who still holds the version read before an auto-close cannot write over it. */
  method StaleAfterAutoClose(service: IssueService, child: Id, p: Id, to: StateId) returns (r: Result<Issue, Error>)
    requires p in Chain(service.catalog, service.issues, child, 0)
    modifies service
    ensures p in old(service.issues) && !old(service.issues)[p].closed
    ensures p in service.issues && service.issues[p].closed && r == Err(VersionConflict)
  {
    var read := service.issues[p];
    service.MaybeAutoCloseParent(child, 0);
    r := service.Transition(p, to, read.version, read.project);
  }
}

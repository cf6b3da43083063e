/**
 Isolation environments: one active row per project and run, backed by a git worktree that outsiders may
 dirty or delete between calls. Git and the disk are sets of paths and branches; `Faults` says which outside
 steps fail this time.
 */
module Isolation {
  import opened Wrappers

  type EnvId = nat
  type Path = nat
  type Branch = nat

  datatype Env = Env(project: nat, run: nat, path: Path, branch: Branch, active: bool, artifacts: Option<Path>)

  /** `disk` holds the worktrees that exist, `dirty` those with uncommitted changes. */
  datatype World = World(envs: map<EnvId, Env>, disk: set<Path>, dirty: set<Path>, branches: set<Branch>, artifacts: set<Path>)

  /** `id` is the key of the row to insert; `path` and `artifacts` are resolved from the settings. */
  datatype Request = Request(
    id: EnvId, project: nat, run: nat, path: Path, branch: Branch, hasBase: bool, copies: bool, artifacts: Path)

  datatype Faults = Faults(
    settings: bool, ignore: bool, create: bool, leavesBranch: bool, add: bool, copy: bool, artifactsDir: bool, insert: bool,
    cleanup: bool, canonical: bool, remove: bool, vanishes: bool)

  datatype Error =
    | NoBaseBranch | SettingsMissing | GitignoreFailed | BranchExists | GitFailed | CopyFailed | ArtifactsFailed
    | InsertFailed | UncommittedChanges

  predicate IsActive(w: World, id: EnvId, project: nat, run: nat) {
    id in w.envs && w.envs[id].active && w.envs[id].project == project && w.envs[id].run == run
  }

  ghost predicate OneActive(w: World) {
    forall i, j | i in w.envs && j in w.envs && w.envs[i].active && w.envs[j].active
                  && w.envs[i].project == w.envs[j].project && w.envs[i].run == w.envs[j].run :: i == j
  }

  predicate HasActive(w: World, project: nat, run: nat) {
    exists id | id in w.envs :: IsActive(w, id, project, run)
  }

  ghost predicate Good(w: World) {
    OneActive(w) && w.dirty <= w.disk
  }

  // ---------------------------------------------------------------- git and the disk

  /** `git worktree add -b`: makes the branch and then the worktree. When that fails, the branch may stay. */
  function CreateWorktree(w: World, path: Path, branch: Branch, f: Faults): (World, Result<(), Error>) {
    if branch in w.branches then (w, Err(BranchExists))
    else if f.create || path in w.disk then
      (if f.leavesBranch then w.(branches := w.branches + {branch}) else w, Err(GitFailed))
    else (w.(disk := w.disk + {path}, branches := w.branches + {branch}), Ok(()))
  }

  /** `git worktree add` on a branch that is there. */
  function AddWorktree(w: World, path: Path, branch: Branch, fails: bool): Result<World, Error> {
    if fails || path in w.disk || branch !in w.branches then Err(GitFailed) else Ok(w.(disk := w.disk + {path}))
  }

  /** `git worktree remove`: refuses a dirty worktree unless forced. */
  function RemoveWorktree(w: World, path: Path, force: bool, fails: bool): Result<World, Error> {
    if fails || path !in w.disk || (!force && path in w.dirty) then Err(GitFailed)
    else Ok(w.(disk := w.disk - {path}, dirty := w.dirty - {path}))
  }

  // ---------------------------------------------------------------- one call each

  ghost function Existing(w: World, project: nat, run: nat): EnvId
    requires HasActive(w, project, run)
  {
    var id :| IsActive(w, id, project, run); id
  }

  /** The end of reuse and of repair: the artifacts directory is there and recorded. */
  function SettleArtifacts(w: World, id: EnvId, r: Request, f: Faults): (World, Result<EnvId, Error>)
    requires id in w.envs
  {
    var path := if w.envs[id].artifacts.Some? then w.envs[id].artifacts.value else r.artifacts;
    if f.artifactsDir then (w, Err(ArtifactsFailed))
    else (w.(envs := w.envs[id := w.envs[id].(artifacts := Some(path))], artifacts := w.artifacts + {path}), Ok(id))
  }

  function Recreated(w: World, env: Env, f: Faults): (World, Result<(), Error>) {
    var (w1, created) := CreateWorktree(w, env.path, env.branch, f);
    if created != Err(BranchExists) then (w1, created)
    else
      var added := AddWorktree(w1, env.path, env.branch, f.add);
      if added.Ok? then (added.value, Ok(())) else (w1, Err(added.error))
  }

  function Repair(w: World, id: EnvId, r: Request, f: Faults): (World, Result<EnvId, Error>)
    requires id in w.envs
  {
    if f.ignore then (w, Err(GitignoreFailed))
    else
      var (w1, created) := Recreated(w, w.envs[id], f);
      if created.Err? then (w1, Err(created.error))
      else if r.copies && f.copy then (w1, Err(CopyFailed))
      else
        assert w1.envs == w.envs;
        SettleArtifacts(w1, id, r, f)
  }

  function NewEnv(r: Request): Env {
    Env(r.project, r.run, r.path, r.branch, true, Some(r.artifacts))
  }

  /** Only a failed insert is cleaned up after; a failed copy leaves the worktree behind. */
  function Mint(w: World, r: Request, f: Faults): (World, Result<EnvId, Error>) {
    if f.ignore then (w, Err(GitignoreFailed))
    else
      var (w1, created) := CreateWorktree(w, r.path, r.branch, f);
      if created.Err? then (w1, Err(created.error))
      else if r.copies && f.copy then (w1, Err(CopyFailed))
      else if f.artifactsDir then (w1, Err(ArtifactsFailed))
      else
        var ready := w1.(artifacts := w.artifacts + {r.artifacts});
        if f.insert || r.id in w.envs then
          var removed := RemoveWorktree(ready, r.path, true, f.cleanup);
          ((if removed.Ok? then removed.value else ready).(artifacts := w.artifacts - {r.artifacts}), Err(InsertFailed))
        else
          (ready.(envs := w.envs[r.id := NewEnv(r)]), Ok(r.id))
  }

  ghost function Acquire(w: World, r: Request, f: Faults): (World, Result<EnvId, Error>) {
    if !r.hasBase then (w, Err(NoBaseBranch))
    else if f.settings then (w, Err(SettingsMissing))
    else if HasActive(w, r.project, r.run) then
      var id := Existing(w, r.project, r.run);
      if w.envs[id].path !in w.disk then Repair(w, id, r, f)
      else if w.envs[id].artifacts.Some? then (w, Ok(id))
      else SettleArtifacts(w, id, r, f)
    else Mint(w, r, f)
  }

  /** A removal that git refuses is put up with when the directory is gone by then (`vanishes`). */
  function Release(w: World, id: EnvId, force: bool, f: Faults): (World, Result<(), Error>) {
    if id !in w.envs || !w.envs[id].active then (w, Ok(()))
    else
      var path := w.envs[id].path;
      var closed := w.envs[id := w.envs[id].(active := false)];
      if path !in w.disk then (w.(envs := closed), Ok(()))
      else if !force && path in w.dirty then (w, Err(UncommittedChanges))
      else
        var removed := RemoveWorktree(w, path, force, f.remove);
        if f.canonical then (w, Err(GitFailed))
        else if removed.Ok? then (removed.value.(envs := closed), Ok(()))
        else if f.vanishes then (w.(envs := closed, disk := w.disk - {path}, dirty := w.dirty - {path}), Ok(()))
        else (w, Err(removed.error))
  }

  // ---------------------------------------------------------------- what the calls promise

  /** An environment handed out is active, is the caller's, and its directories exist. */
  lemma AcquiredUsable(w: World, r: Request, f: Faults)
    requires Acquire(w, r, f).1.Ok?
    ensures
      var (w', got) := Acquire(w, r, f);
      && IsActive(w', got.value, r.project, r.run)
      && w'.envs[got.value].path in w'.disk
      && w'.envs[got.value].artifacts.Some?
  {
  }

  /** What is written when it succeeds, field by field. A fresh environment is the request's own. An active one
      without an artifacts path gets the request's; whichever is recorded on the way is on disk then. A worktree
      that was gone is made again at the row's own path, on the row's own branch. */
  lemma AcquiredExact(w: World, r: Request, f: Faults)
    requires Acquire(w, r, f).1.Ok?
    ensures
      var (w', got) := Acquire(w, r, f);
      var id := got.value;
      && id in w'.envs && w'.envs == w.envs[id := w'.envs[id]]
      && (!HasActive(w, r.project, r.run) ==>
            w'.envs[id] == Env(r.project, r.run, r.path, r.branch, true, Some(r.artifacts)) && r.artifacts in w'.artifacts)
      && (HasActive(w, r.project, r.run) ==>
            && id in w.envs
            && w'.envs[id] == w.envs[id].(artifacts := Some(if w.envs[id].artifacts.Some? then w.envs[id].artifacts.value else r.artifacts))
            && w'.disk == w.disk + {w.envs[id].path}
            && w'.branches == w.branches + (if w.envs[id].path in w.disk then {} else {w.envs[id].branch})
            && (w.envs[id].path !in w.disk || w.envs[id].artifacts.None? ==> w'.envs[id].artifacts.value in w'.artifacts))
  {
  }

  /** What is left when a first acquire fails: only a failed insert is cleaned up after, all but the branch; a
      failed copy or artifacts directory leaves the worktree. No row is written. */
  lemma FailureLeaves(w: World, r: Request, f: Faults)
    requires !HasActive(w, r.project, r.run) && Acquire(w, r, f).1.Err?
    ensures
      var (w', failed) := Acquire(w, r, f);
      && w'.envs == w.envs && w'.dirty <= w.dirty
      && (failed.error in {CopyFailed, ArtifactsFailed} ==>
            w' == w.(disk := w.disk + {r.path}, branches := w.branches + {r.branch}))
      && (failed.error == InsertFailed && !f.cleanup ==>
            w'.disk == w.disk && w'.branches == w.branches + {r.branch} && w'.artifacts == w.artifacts - {r.artifacts})
      && (failed.error in {NoBaseBranch, SettingsMissing, GitignoreFailed, BranchExists} ==> w' == w)
      && (failed.error == GitFailed ==> w'.disk == w.disk && w'.artifacts == w.artifacts && w'.branches <= w.branches + {r.branch})
  {
    if Acquire(w, r, f).1.error == InsertFailed {
      assert r.path !in w.disk && w.disk + {r.path} - {r.path} == w.disk;
    }
  }

  /** An acquire for a run that has an active environment succeeds exactly when nothing it needs fails: nothing at
      all if the worktree is there and its artifacts path recorded, the artifacts directory if only that path is
      missing; to make the worktree again, a new branch, or else the branch that is there. */
  lemma ReacquireSucceedsIff(w: World, r: Request, f: Faults, id: EnvId)
    requires Good(w) && IsActive(w, id, r.project, r.run)
    ensures
      var env := w.envs[id];
      Acquire(w, r, f).1.Ok? <==>
        && r.hasBase && !f.settings
        && (if env.path in w.disk then env.artifacts.Some? || !f.artifactsDir
            else && !f.ignore && !(if env.branch in w.branches then f.add else f.create)
                 && !(r.copies && f.copy) && !f.artifactsDir)
  {
    assert HasActive(w, r.project, r.run) && IsActive(w, Existing(w, r.project, r.run), r.project, r.run);
  }

  /** While a run has an active environment, acquiring never makes another: the same id, path and branch
      come back, and the artifacts path too once it is set. */
  lemma ReacquireKeeps(w: World, r: Request, f: Faults, id: EnvId)
    requires Good(w) && IsActive(w, id, r.project, r.run)
    ensures
      var (w', got) := Acquire(w, r, f);
      && (got.Ok? ==> got.value == id)
      && w'.envs.Keys == w.envs.Keys
      && Same(w.envs[id], w'.envs[id])
      && (forall other | other in w.envs && other != id :: w'.envs[other] == w.envs[other])
  {
    assert HasActive(w, r.project, r.run);
    var same := Existing(w, r.project, r.run);
    assert IsActive(w, same, r.project, r.run);
  }

  /** The same environment, except that a missing artifacts path may have been filled in. */
  predicate Same(before: Env, after: Env) {
    && after.(artifacts := None) == before.(artifacts := None)
    && (before.artifacts.Some? ==> after == before)
  }

  /** A first acquire succeeds exactly when git knows neither the branch nor the path and nothing outside
      fails. */
  lemma MintSucceedsIff(w: World, r: Request, f: Faults)
    requires !HasActive(w, r.project, r.run)
    ensures Acquire(w, r, f).1.Ok? <==>
            && r.hasBase && !f.settings && !f.ignore && !f.create && !(r.copies && f.copy) && !f.artifactsDir && !f.insert
            && r.branch !in w.branches && r.path !in w.disk && r.id !in w.envs
    ensures Acquire(w, r, f).1.Ok? ==>
      Acquire(w, r, f).0 == World(w.envs[r.id := NewEnv(r)], w.disk + {r.path}, w.dirty,
                                  w.branches + {r.branch}, w.artifacts + {r.artifacts})
  {
  }

  /** A release succeeds exactly when there is nothing to remove, or git removes it, or it is gone in the end;
      unforced, it refuses a dirty worktree and loses no uncommitted change, and it closes no other environment. */
  lemma ReleaseExact(w: World, id: EnvId, force: bool, f: Faults)
    requires Good(w)
    ensures
      var (w', done) := Release(w, id, force, f);
      && (done.Ok? <==> id !in w.envs || !w.envs[id].active || w.envs[id].path !in w.disk
                        || ((force || w.envs[id].path !in w.dirty) && !f.canonical && (!f.remove || f.vanishes)))
      && (done.Ok? && id in w.envs ==> id in w'.envs && w'.envs[id] == w.envs[id].(active := false))
      && (done.Ok? && id in w.envs && w.envs[id].active ==> w'.disk == w.disk - {w.envs[id].path})
      && w'.artifacts == w.artifacts
      && (done.Err? ==> w' == w)
      && (done == Err(UncommittedChanges) <==>
            !force && id in w.envs && w.envs[id].active && w.envs[id].path in w.dirty)
      && (!force ==> w.dirty <= w'.dirty)
      && (forall path | path in w.disk && path !in w'.disk :: id in w.envs && path == w.envs[id].path)
      && (forall other | other in w.envs && other != id :: other in w'.envs && w'.envs[other] == w.envs[other])
      && w'.branches == w.branches
  {
  }

  // ---------------------------------------------------------------- any sequence of calls and outside changes

  datatype Event =
    | DoAcquire(r: Request, f: Faults)
    | DoRelease(id: EnvId, force: bool, g: Faults)
    | MakeDirty(path: Path)
    | Commit(path: Path)
    | DeleteWorktree(path: Path)
    | DeleteBranch(branch: Branch)

  ghost function Next(w: World, e: Event): World {
    match e
    case DoAcquire(r, f) => Acquire(w, r, f).0
    case DoRelease(id, force, f) => Release(w, id, force, f).0
    case MakeDirty(path) => if path in w.disk then w.(dirty := w.dirty + {path}) else w
    case Commit(path) => w.(dirty := w.dirty - {path})
    case DeleteWorktree(path) => w.(disk := w.disk - {path}, dirty := w.dirty - {path})
    case DeleteBranch(branch) => w.(branches := w.branches - {branch})
  }

  ghost function Run(w: World, events: seq<Event>): World
    decreases |events|
  {
    if events == [] then w else Run(Next(w, events[0]), events[1..])
  }

  lemma AcquireGood(w: World, r: Request, f: Faults)
    requires Good(w)
    ensures Good(Acquire(w, r, f).0)
  {
    if HasActive(w, r.project, r.run) {
      ReacquireKeeps(w, r, f, Existing(w, r.project, r.run));
      var w' := Acquire(w, r, f).0;
      assert forall i | i in w.envs :: Same(w.envs[i], w'.envs[i]);
    } else {
      assert forall i | i in w.envs :: !IsActive(w, i, r.project, r.run);
    }
  }

  lemma NextGood(w: World, e: Event)
    requires Good(w)
    ensures Good(Next(w, e))
  {
    match e {
      case DoAcquire(r, f) => AcquireGood(w, r, f);
      case DoRelease(id, force, f) => ReleaseExact(w, id, force, f);
      case _ =>
    }
  }

  /** An active environment that is not released: whatever else happens, it stays what it was, and every
      acquire for its run that succeeds returns it. */
  lemma NextKeeps(w: World, e: Event, id: EnvId)
    requires Good(w) && id in w.envs && w.envs[id].active
    requires !(e.DoRelease? && e.id == id)
    ensures id in Next(w, e).envs && Same(w.envs[id], Next(w, e).envs[id])
  {
    match e {
      case DoAcquire(r, f) =>
        if HasActive(w, r.project, r.run) {
          ReacquireKeeps(w, r, f, Existing(w, r.project, r.run));
        }
      case DoRelease(other, force, f) => ReleaseExact(w, other, force, f);
      case _ =>
    }
  }

  ghost predicate Unreleased(events: seq<Event>, id: EnvId) {
    forall e | e in events :: !(e.DoRelease? && e.id == id)
  }

  /** Over any sequence of calls, failures and outside changes: one active environment for each run; and
      until it is released an active environment is the one that its run's acquires return. */
  lemma {:induction false} OneEnvironment(w: World, events: seq<Event>, id: EnvId, r: Request, f: Faults)
    requires Good(w) && IsActive(w, id, r.project, r.run) && Unreleased(events, id)
    ensures
      var w' := Run(w, events);
      && Good(w') && IsActive(w', id, r.project, r.run) && Same(w.envs[id], w'.envs[id])
      && (Acquire(w', r, f).1.Ok? ==> Acquire(w', r, f).1 == Ok(id))
    decreases |events|
  {
    if events == [] {
      ReacquireKeeps(w, r, f, id);
    } else {
      assert events[0] in events && forall e | e in events[1..] :: e in events;
      NextGood(w, events[0]);
      NextKeeps(w, events[0], id);
      OneEnvironment(Next(w, events[0]), events[1..], id, r, f);
    }
  }

  /** Over any sequence of calls, failures and outside changes, no project and run ever has two active
      environments. */
  lemma {:induction false} NeverTwoActive(w: World, events: seq<Event>)
    requires Good(w)
    ensures Good(Run(w, events)) && OneActive(Run(w, events))
    decreases |events|
  {
    if events != [] {
      NextGood(w, events[0]);
      NeverTwoActive(Next(w, events[0]), events[1..]);
    }
  }

  lemma {:induction false} BranchStays(w: World, events: seq<Event>, branch: Branch)
    requires branch in w.branches && DeleteBranch(branch) !in events
    ensures branch in Run(w, events).branches
    decreases |events|
  {
    if events != [] {
      assert events[0] in events && forall e | e in events[1..] :: e in events;
      BranchStays(Next(w, events[0]), events[1..], branch);
    }
  }

  /** Once a first acquire has found or left its branch in git, successful or not, the branch is never cleaned
      up: until someone outside deletes it, every later first acquire with it fails. */
  lemma BranchBlocksReacquire(w: World, r: Request, f: Faults, events: seq<Event>, again: Request, g: Faults)
    requires !HasActive(w, r.project, r.run)
    requires
      || Acquire(w, r, f).1.Ok?
      || Acquire(w, r, f).1.error in {BranchExists, CopyFailed, ArtifactsFailed, InsertFailed}
      || (Acquire(w, r, f).1.error == GitFailed && f.leavesBranch)
    requires DeleteBranch(r.branch) !in events && again.branch == r.branch
    ensures
      var w' := Run(Acquire(w, r, f).0, events);
      !HasActive(w', again.project, again.run) ==> Acquire(w', again, g).1.Err?
  {
    BranchStays(Acquire(w, r, f).0, events, r.branch);
  }

  // ---------------------------------------------------------------- the provider

  class IsolationProvider {
    var envs: map<EnvId, Env>
    var disk: set<Path>
    var dirty: set<Path>
    var branches: set<Branch>
    var artifacts: set<Path>

    ghost function Contents(): World
      reads this
    {
      World(envs, disk, dirty, branches, artifacts)
    }

    method AcquireEnvironment(r: Request, f: Faults) returns (got: Result<EnvId, Error>)
      requires Good(Contents())
      modifies this
      ensures (Contents(), got) == Acquire(old(Contents()), r, f)
      ensures Good(Contents())
    {
      AcquireGood(Contents(), r, f);
      if !r.hasBase {
        return Err(NoBaseBranch);
      }
      if f.settings {
        return Err(SettingsMissing);
      }
      ghost var w := Contents();
      var existing := set id | id in envs && envs[id].active && envs[id].project == r.project && envs[id].run == r.run;
      if existing != {} {
        var id :| id in existing;
        assert IsActive(w, id, r.project, r.run);
        assert IsActive(w, Existing(w, r.project, r.run), r.project, r.run);
        if envs[id].path in disk {
          if envs[id].artifacts.Some? {
            return Ok(id);
          }
          got := RecordArtifacts(id, r, f);
          return;
        }
        if f.ignore {
          return Err(GitignoreFailed);
        }
        var created := Create(envs[id].path, envs[id].branch, f);
        if created == Err(BranchExists) {
          created := Add(envs[id].path, envs[id].branch, f.add);
        }
        if created.Err? {
          return Err(created.error);
        }
        if r.copies && f.copy {
          return Err(CopyFailed);
        }
        got := RecordArtifacts(id, r, f);
        return;
      }
      assert !HasActive(w, r.project, r.run) by {
        assert forall id | id in envs :: IsActive(w, id, r.project, r.run) <==> id in existing;
      }
      if f.ignore {
        return Err(GitignoreFailed);
      }
      var created := Create(r.path, r.branch, f);
      if created.Err? {
        return Err(created.error);
      }
      if r.copies && f.copy {
        return Err(CopyFailed);
      }
      if f.artifactsDir {
        return Err(ArtifactsFailed);
      }
      artifacts := artifacts + {r.artifacts};
      if f.insert || r.id in envs {
        var removed := Remove(r.path, true, f.cleanup);
        artifacts := artifacts - {r.artifacts};
        assert artifacts == w.artifacts - {r.artifacts};
        return Err(InsertFailed);
      }
      envs := envs[r.id := Env(r.project, r.run, r.path, r.branch, true, Some(r.artifacts))];
      return Ok(r.id);
    }

    method RecordArtifacts(id: EnvId, r: Request, f: Faults) returns (got: Result<EnvId, Error>)
      requires id in envs
      modifies this
      ensures (Contents(), got) == SettleArtifacts(old(Contents()), id, r, f)
    {
      var path := if envs[id].artifacts.Some? then envs[id].artifacts.value else r.artifacts;
      if f.artifactsDir {
        return Err(ArtifactsFailed);
      }
      artifacts := artifacts + {path};
      envs := envs[id := envs[id].(artifacts := Some(path))];
      return Ok(id);
    }

    method Create(path: Path, branch: Branch, f: Faults) returns (r: Result<(), Error>)
      modifies this`disk, this`branches
      ensures (Contents(), r) == CreateWorktree(old(Contents()), path, branch, f)
    {
      if branch in branches {
        return Err(BranchExists);
      }
      if f.create || path in disk {
        if f.leavesBranch {
          branches := branches + {branch};
        }
        return Err(GitFailed);
      }
      disk, branches := disk + {path}, branches + {branch};
      return Ok(());
    }

    method Add(path: Path, branch: Branch, fails: bool) returns (r: Result<(), Error>)
      modifies this`disk
      ensures var made := AddWorktree(old(Contents()), path, branch, fails);
              if made.Ok? then r.Ok? && Contents() == made.value else r == Err(made.error) && Contents() == old(Contents())
    {
      if fails || path in disk || branch !in branches {
        return Err(GitFailed);
      }
      disk := disk + {path};
      return Ok(());
    }

    method Remove(path: Path, force: bool, fails: bool) returns (r: Result<(), Error>)
      modifies this`disk, this`dirty
      ensures var left := RemoveWorktree(old(Contents()), path, force, fails);
              if left.Ok? then r.Ok? && Contents() == left.value else r == Err(left.error) && Contents() == old(Contents())
    {
      if fails || path !in disk || (!force && path in dirty) {
        return Err(GitFailed);
      }
      disk, dirty := disk - {path}, dirty - {path};
      return Ok(());
    }

    /** Unforced, no worktree with uncommitted changes is removed. */
    method ReleaseEnvironment(id: EnvId, force: bool, f: Faults) returns (done: Result<(), Error>)
      requires Good(Contents())
      modifies this
      ensures (Contents(), done) == Release(old(Contents()), id, force, f)
      ensures Good(Contents()) && (!force ==> old(dirty) <= dirty)
    {
      NextGood(Contents(), DoRelease(id, force, f));
      ReleaseExact(Contents(), id, force, f);
      if id !in envs || !envs[id].active {
        return Ok(());
      }
      if envs[id].path in disk {
        if !force && envs[id].path in dirty {
          return Err(UncommittedChanges);
        }
        if f.canonical {
          return Err(GitFailed);
        }
        var removed := Remove(envs[id].path, force, f.remove);
        if removed.Err? {
          if !f.vanishes {
            return Err(removed.error);
          }
          disk, dirty := disk - {envs[id].path}, dirty - {envs[id].path};
        }
      }
      envs := envs[id := envs[id].(active := false)];
      return Ok(());
    }
  }
}

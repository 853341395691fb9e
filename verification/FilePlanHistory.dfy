/**
 What the operations of a file plan do to the files and to the artifacts, and what
 undoing them does (packages/cli/src/file-plan.ts).
 */
module FilePlanHistory {
  import opened Wrappers
  import opened FileTree

  datatype Operation =
    | Mkdir(path: Path)
    | Write(path: Path, content: Content, overwrite: bool)
    | Move(from: Path, to: Path)
    | Remove(path: Path)

  /** A name `uniqueSiblingPath` makes: ordinary but for its last component. */
  predicate TransactionPath(p: Path): (yes: bool)
    ensures yes ==> !Ordinary(p)
  {
    |p| > 0 && Ordinary(p[..|p| - 1]) && p[|p| - 1].Transaction?
  }

  datatype Artifact = Artifact(path: Path, stage: bool, onSuccess: bool, onFailure: bool)

  /** One undo closure and the variables it captured; `created` lists the directories made for it, deepest first. */
  datatype Undo =
    | UndoMkdir(created: seq<Path>)
    | UndoWrite(path: Path, installed: bool, backup: Option<nat>, created: seq<Path>)
    | UndoMove(from: Path, to: Path, moved: bool, created: seq<Path>)
    | UndoRemove(path: Path, backup: Option<nat>)

  /** `stuck`: the rollback reports a rename back that failed. */
  datatype Outcome = Rejected | Committed | RolledBack(completed: nat, stuck: bool)

  predicate OrdinaryOperation(op: Operation) {
    if op.Move? then Ordinary(op.from) && Ordinary(op.to) else Ordinary(op.path)
  }

  function Paths(artifacts: seq<Artifact>): (paths: seq<Path>)
    ensures |paths| == |artifacts|
  {
    seq(|artifacts|, i requires 0 <= i < |artifacts| => artifacts[i].path)
  }

  // ----- what each operation does -----

  /** Where undoing an operation takes a path it did not touch. */
  function Unmoved(op: Operation, p: Path): Path {
    if op.Move? then Renamed(p, op.to, op.from) else p
  }

  /** Where undoing all of `ops`, last first, takes a path. */
  function Back(ops: seq<Operation>, p: Path): Path {
    if ops == [] then p else Unmoved(ops[0], Back(ops[1..], p))
  }

  lemma {:induction false} BackIsOrdinary(ops: seq<Operation>, p: Path)
    requires Ordinary(p) && forall i :: 0 <= i < |ops| ==> OrdinaryOperation(ops[i])
    ensures Ordinary(Back(ops, p))
  {
    if ops != [] {
      BackIsOrdinary(ops[1..], p);
    }
  }

  /**
   The paths a rollback deletes: the clean-up of a failed plan still owns the
   staged file of every completed write, at the target where the write left it,
   traced back through the moves undone since.
   */
  function Lost(plan: seq<Operation>, completed: nat): set<Path>
    requires completed <= |plan|
  {
    set k | 0 <= k < completed && plan[k].Write? :: Back(plan[..k], plan[k].path)
  }

  function Mid(s: Snap, path: Path, backup: Option<nat>, t: Snap): Snap
    requires backup.Some? ==> |s.paths| < |t.paths| && CanMove(s, path, t.paths[|s.paths|])
  {
    if backup.Some? then Parked(s, path, t.paths[|s.paths|]) else s
  }

  /** `t` is `s` after a write, complete or cut short, whose undo entry is `u`. */
  ghost predicate WriteDone(op: Operation, stage: nat, u: Undo, s: Snap, t: Snap, complete: bool)
    requires op.Write?
  {
    && u.UndoWrite? && u.path == op.path && stage < |s.paths| && |s.paths| <= |t.paths|
    && (u.backup.Some? ==>
          && u.backup.value == |s.paths| < |t.paths|
          && TransactionPath(t.paths[|s.paths|]) && CanMove(s, op.path, t.paths[|s.paths|]))
    && var mid := Mid(s, op.path, u.backup, t);
       if complete then u.installed && CanInstall(mid, stage, op.path) && t == Installed(mid, stage, op.path)
       else if u.installed then CanInstall(mid, stage, op.path) && t == Linked(mid, stage, op.path)
       else t == mid
  }

  ghost predicate RemoveDone(op: Operation, u: Undo, s: Snap, t: Snap, complete: bool)
    requires op.Remove?
  {
    && u.UndoRemove? && u.path == op.path && |s.paths| <= |t.paths|
    && (complete ==> u.backup.Some?)
    && if u.backup.None? then t == s
       else
         && u.backup.value == |s.paths| < |t.paths|
         && TransactionPath(t.paths[|s.paths|]) && CanMove(s, op.path, t.paths[|s.paths|])
         && t == Parked(s, op.path, t.paths[|s.paths|])
  }

  ghost predicate MoveDone(op: Operation, u: Undo, s: Snap, t: Snap, complete: bool)
    requires op.Move?
  {
    && u.UndoMove? && u.from == op.from && u.to == op.to
    && (complete ==> u.moved)
    && if u.moved then CanMove(s, op.from, op.to) && t == Moved(s, op.from, op.to) else t == s
  }

  ghost predicate OpDone(op: Operation, stage: nat, u: Undo, s: Snap, t: Snap, complete: bool) {
    match op
    case Mkdir(_) => u.UndoMkdir? && t == s
    case Write(_, _, _) => WriteDone(op, stage, u, s, t, complete)
    case Move(_, _) => MoveDone(op, u, s, t, complete)
    case Remove(_) => RemoveDone(op, u, s, t, complete)
  }

  /** The staged files of the writes still to come, each in place under a path of its own. */
  ghost predicate Staged(s: Snap, plan: seq<Operation>, staged: map<nat, nat>, next: nat) {
    forall k | next <= k < |plan| && plan[k].Write? ::
      && k in staged && staged[k] < |s.paths|
      && s.paths[staged[k]] in s.files && s.files[s.paths[staged[k]]] == plan[k].content
      && !Ordinary(s.paths[staged[k]])
      && forall i :: 0 <= i < |s.paths| && i != staged[k] ==> s.paths[i] != s.paths[staged[k]]
  }

  /** Each write has a stage of its own among the first `stages` artifacts. */
  predicate Indexed(plan: seq<Operation>, staged: map<nat, nat>, stages: nat) {
    && (forall k | 0 <= k < |plan| && plan[k].Write? :: k in staged && staged[k] < stages)
    && (forall k, l :: k in staged && l in staged && k != l ==> staged[k] != staged[l])
  }

  predicate OrdinaryPlan(plan: seq<Operation>) {
    forall k :: 0 <= k < |plan| ==> OrdinaryOperation(plan[k])
  }

  function StageOf(staged: map<nat, nat>, k: nat): nat {
    if k in staged then staged[k] else 0
  }

  /** The stages that writes `from..completed` took. */
  function Taken(plan: seq<Operation>, staged: map<nat, nat>, from: nat, completed: nat): set<nat> {
    set k | from <= k < completed && k < |plan| && plan[k].Write? :: StageOf(staged, k)
  }

  /** Every artifact path is a file, or a directory under a transaction name. */
  predicate Anchored(files: Files, dirs: set<Path>, p: Path) {
    p in files || (p in dirs && !Ordinary(p))
  }

  lemma MoveStaged(s: Snap, from: Path, to: Path, plan: seq<Operation>, staged: map<nat, nat>, next: nat)
    requires CanMove(s, from, to) && Ordinary(from) && Staged(s, plan, staged, next)
    ensures Staged(Moved(s, from, to), plan, staged, next)
  {
    var t := Moved(s, from, to);
    RenameKeys(s.files, from, to);
    forall i | 0 <= i < |s.paths| ensures Renamed(t.paths[i], to, from) == s.paths[i] {
      RenamedBack(s.paths[i], from, to);
    }
    forall k | next <= k < |plan| && plan[k].Write? ensures !Ordinary(t.paths[staged[k]]) {
      StillMarked(s.paths[staged[k]], from, to);
    }
  }

  lemma ParkStaged(s: Snap, path: Path, backup: Path, plan: seq<Operation>, staged: map<nat, nat>, next: nat)
    requires CanMove(s, path, backup) && Ordinary(path) && Staged(s, plan, staged, next)
    ensures Staged(Parked(s, path, backup), plan, staged, next)
  {
    MoveStaged(s, path, backup, plan, staged, next);
    var t := Parked(s, path, backup);
    RenameKeys(s.files, path, backup);
    forall k | next <= k < |plan| && plan[k].Write? ensures t.paths[staged[k]] != backup {
      assert s.paths[staged[k]] in s.files && !(backup <= s.paths[staged[k]]);
      if path <= s.paths[staged[k]] && t.paths[staged[k]] == backup {
        assert false;
      }
    }
  }

  lemma InstallStaged(s: Snap, path: Path, plan: seq<Operation>, staged: map<nat, nat>, next: nat, stages: nat)
    requires next < |plan| && plan[next].Write? && Staged(s, plan, staged, next) && Indexed(plan, staged, stages)
    requires CanInstall(s, staged[next], path)
    ensures Staged(Installed(s, staged[next], path), plan, staged, next + 1)
  {
  }

  /** The first `next` operations are done; each undo entry takes its snapshot back. */
  ghost predicate History(plan: seq<Operation>, staged: map<nat, nat>, undo: seq<Undo>, snaps: seq<Snap>, next: nat) {
    && next <= |plan| && next <= |undo| && next < |snaps|
    && forall j | 0 <= j < next :: OpDone(plan[j], StageOf(staged, j), undo[j], snaps[j], snaps[j + 1], true)
  }

  lemma HistoryKept(plan: seq<Operation>, staged: map<nat, nat>, undo: seq<Undo>, snaps: seq<Snap>,
                    undo': seq<Undo>, snaps': seq<Snap>, next: nat)
    requires History(plan, staged, undo, snaps, next)
    requires next <= |undo'| && next < |snaps'| && undo'[..next] == undo[..next] && snaps'[..next + 1] == snaps[..next + 1]
    ensures History(plan, staged, undo', snaps', next)
  {
    hide OpDone;
    forall j | 0 <= j < next ensures OpDone(plan[j], StageOf(staged, j), undo'[j], snaps'[j], snaps'[j + 1], true) {
      assert undo'[..next][j] == undo[..next][j];
      assert snaps'[..next + 1][j] == snaps[..next + 1][j] && snaps'[..next + 1][j + 1] == snaps[..next + 1][j + 1];
    }
  }

  lemma HistoryNext(plan: seq<Operation>, staged: map<nat, nat>, undo: seq<Undo>, snaps: seq<Snap>, next: nat)
    requires History(plan, staged, undo, snaps, next) && next < |plan| && next < |undo| && next + 1 < |snaps|
    requires OpDone(plan[next], StageOf(staged, next), undo[next], snaps[next], snaps[next + 1], true)
    ensures History(plan, staged, undo, snaps, next + 1)
  {
    hide OpDone;
  }

  /** Later artifacts are backups; earlier ones keep their kind, and only `taken` leaves the clean-up of a success. */
  ghost predicate Flagged(a: seq<Artifact>, b: seq<Artifact>, taken: set<nat>) {
    && |a| <= |b|
    && (forall i | 0 <= i < |a| :: b[i].stage == a[i].stage && b[i].onSuccess == (a[i].onSuccess && i !in taken))
    && (forall i | |a| <= i < |b| :: !b[i].stage && b[i].onSuccess)
  }

  lemma FlaggedBoth(a: seq<Artifact>, b: seq<Artifact>, c: seq<Artifact>, taken: set<nat>)
    requires Flagged(a, b, {}) && Flagged(b, c, taken) && forall i :: i in taken ==> i < |a|
    ensures Flagged(a, c, taken)
  {
  }

  /** The artifact of each write undone points where undoing the moves before it led. */
  ghost predicate Tracked(plan: seq<Operation>, staged: map<nat, nat>, paths: seq<Path>, j: nat, completed: nat)
    requires completed <= |plan|
  {
    forall k | j <= k < completed && plan[k].Write? ::
      StageOf(staged, k) < |paths| && paths[StageOf(staged, k)] == Back(plan[j..k], plan[k].path)
  }

  lemma TakenStep(plan: seq<Operation>, staged: map<nat, nat>, j: nat, completed: nat, stages: nat)
    requires j < |plan| && completed <= |plan| && Indexed(plan, staged, stages)
    ensures Taken(plan, staged, j, completed)
         == Taken(plan, staged, j + 1, completed) + (if j < completed && plan[j].Write? then {StageOf(staged, j)} else {})
    ensures plan[j].Write? ==> StageOf(staged, j) !in Taken(plan, staged, j + 1, completed)
    ensures forall i :: i in Taken(plan, staged, j, completed) ==> i < stages
  {
  }

  lemma OrdinaryStays(p: Path, backup: Path, path: Path)
    requires Ordinary(p) && !Ordinary(backup)
    ensures Renamed(p, backup, path) == p
  {
    var i :| 0 <= i < |backup| && !backup[i].Plain?;
  }

  /** Undoing operation `j` takes each tracked path one operation further back. */
  lemma TrackedStep(plan: seq<Operation>, staged: map<nat, nat>, paths: seq<Path>, paths': seq<Path>, j: nat, completed: nat)
    requires j < |plan| && completed <= |plan| && Tracked(plan, staged, paths, j + 1, completed)
    requires |paths| <= |paths'|
    requires forall k | j < k < completed && plan[k].Write? :: paths'[StageOf(staged, k)] == Unmoved(plan[j], paths[StageOf(staged, k)])
    requires j < completed && plan[j].Write? ==> StageOf(staged, j) < |paths'| && paths'[StageOf(staged, j)] == plan[j].path
    ensures Tracked(plan, staged, paths', j, completed)
  {
    forall k | j <= k < completed && plan[k].Write?
      ensures StageOf(staged, k) < |paths'| && paths'[StageOf(staged, k)] == Back(plan[j..k], plan[k].path)
    {
      if k > j {
        assert plan[j..k][0] == plan[j] && plan[j..k][1..] == plan[j + 1..k];
      } else {
        assert plan[j..k] == [];
      }
    }
  }

  /** Tracked paths are ordinary, so bringing a backup back does not touch them. */
  lemma TrackedBackup(plan: seq<Operation>, staged: map<nat, nat>, paths: seq<Path>, backup: Path, path: Path, j: nat, completed: nat)
    requires completed <= |plan| && OrdinaryPlan(plan) && !Ordinary(backup) && Tracked(plan, staged, paths, j, completed)
    ensures forall k | j <= k < completed && plan[k].Write? ::
      PathsRenamed(paths, backup, path)[StageOf(staged, k)] == paths[StageOf(staged, k)]
  {
    forall k | j <= k < completed && plan[k].Write?
      ensures PathsRenamed(paths, backup, path)[StageOf(staged, k)] == paths[StageOf(staged, k)]
    {
      assert OrdinaryOperation(plan[k]);
      BackIsOrdinary(plan[j..k], plan[k].path);
      OrdinaryStays(paths[StageOf(staged, k)], backup, path);
    }
  }

  lemma TrackedSame(plan: seq<Operation>, staged: map<nat, nat>, paths: seq<Path>, j: nat, completed: nat)
    requires j < |plan| && completed <= |plan| && Tracked(plan, staged, paths, j + 1, completed) && !plan[j].Move?
    requires j < completed && plan[j].Write? ==> StageOf(staged, j) < |paths| && paths[StageOf(staged, j)] == plan[j].path
    ensures Tracked(plan, staged, paths, j, completed)
  {
    TrackedStep(plan, staged, paths, paths, j, completed);
  }

  /** A move cut short had nothing completed after it. */
  lemma TrackedNothing(plan: seq<Operation>, staged: map<nat, nat>, paths: seq<Path>, j: nat, completed: nat)
    requires completed <= j && completed <= |plan|
    ensures Tracked(plan, staged, paths, j, completed)
  {
  }

  lemma TrackedMove(plan: seq<Operation>, staged: map<nat, nat>, paths: seq<Path>, j: nat, completed: nat)
    requires j < |plan| && completed <= |plan| && Tracked(plan, staged, paths, j + 1, completed) && plan[j].Move?
    ensures Tracked(plan, staged, PathsRenamed(paths, plan[j].to, plan[j].from), j, completed)
  {
    TrackedStep(plan, staged, paths, PathsRenamed(paths, plan[j].to, plan[j].from), j, completed);
  }

  lemma TrackedPark(plan: seq<Operation>, staged: map<nat, nat>, paths: seq<Path>, backup: Path, j: nat, completed: nat)
    requires j < |plan| && completed <= |plan| && Tracked(plan, staged, paths, j + 1, completed)
    requires OrdinaryPlan(plan) && !Ordinary(backup) && (plan[j].Write? || plan[j].Remove?)
    requires j < completed && plan[j].Write? ==> StageOf(staged, j) < |paths| && paths[StageOf(staged, j)] == plan[j].path
    ensures Tracked(plan, staged, PathsRenamed(paths, backup, plan[j].path), j, completed)
  {
    TrackedBackup(plan, staged, paths, backup, plan[j].path, j + 1, completed);
    assert OrdinaryOperation(plan[j]);
    OrdinaryStays(plan[j].path, backup, plan[j].path);
    hide OrdinaryPlan, Ordinary, Renamed;
    TrackedStep(plan, staged, paths, PathsRenamed(paths, backup, plan[j].path), j, completed);
  }

  /** Undo entries `j` and later have run: the files and artifact paths they leave. */
  ghost predicate UndoneTo(plan: seq<Operation>, staged: map<nat, nat>, undo: seq<Undo>, snaps: seq<Snap>,
                           j: nat, completed: nat, files: Files, paths: seq<Path>) {
    && History(plan, staged, undo, snaps, completed) && j <= |undo| < |snaps| && |undo| <= |plan|
    && OrdinaryPlan(plan) && Indexed(plan, staged, |snaps[0].paths|)
    && Reverted(files, paths, snaps[j], Taken(plan, staged, j, completed))
    && Tracked(plan, staged, paths, j, completed)
  }

  /** Undo entry `j` is next, and is what operation `j` pushed, complete or not. */
  ghost predicate NextUndo(plan: seq<Operation>, staged: map<nat, nat>, undo: seq<Undo>, snaps: seq<Snap>,
                           j: nat, completed: nat, files: Files, paths: seq<Path>) {
    && j < |plan| && j < |undo| && j <= completed
    && UndoneTo(plan, staged, undo, snaps, j + 1, completed, files, paths)
    && OpDone(plan[j], StageOf(staged, j), undo[j], snaps[j], snaps[j + 1], j < completed)
  }

  lemma UndoFacts(plan: seq<Operation>, staged: map<nat, nat>, undo: seq<Undo>, snaps: seq<Snap>,
                  j: nat, completed: nat, files: Files, paths: seq<Path>)
    requires NextUndo(plan, staged, undo, snaps, j, completed, files, paths)
    ensures completed <= |plan|
    ensures var taken := Taken(plan, staged, j + 1, completed);
      && (forall i :: i in taken ==> i < |snaps[j].paths|)
      && Taken(plan, staged, j, completed) == taken + (if j < completed && plan[j].Write? then {StageOf(staged, j)} else {})
      && (!(j < completed && plan[j].Write?) ==> Taken(plan, staged, j, completed) == taken)
      && (plan[j].Write? ==> StageOf(staged, j) !in taken)
      && (j >= completed ==> taken == {})
  {
    SnapsGrow(plan, staged, undo, snaps, completed, j);
    TakenStep(plan, staged, j, completed, |snaps[0].paths|);
    hide History, OpDone, Reverted, Tracked, Indexed;
  }

  lemma MkdirUndone(plan: seq<Operation>, staged: map<nat, nat>, undo: seq<Undo>, snaps: seq<Snap>,
                    j: nat, completed: nat, files: Files, paths: seq<Path>)
    requires NextUndo(plan, staged, undo, snaps, j, completed, files, paths) && plan[j].Mkdir?
    ensures UndoneTo(plan, staged, undo, snaps, j, completed, files, paths)
  {
    UndoFacts(plan, staged, undo, snaps, j, completed, files, paths);
    hide History, Indexed, OrdinaryPlan, Reverted, Tracked;
    TrackedSame(plan, staged, paths, j, completed);
  }

  lemma MoveUndone(plan: seq<Operation>, staged: map<nat, nat>, undo: seq<Undo>, snaps: seq<Snap>,
                   j: nat, completed: nat, files: Files, paths: seq<Path>)
    requires NextUndo(plan, staged, undo, snaps, j, completed, files, paths) && plan[j].Move?
    ensures var from, to := plan[j].from, plan[j].to;
      if undo[j].moved
      then Free(files, from)
        && UndoneTo(plan, staged, undo, snaps, j, completed, Rename(files, to, from), PathsRenamed(paths, to, from))
      else UndoneTo(plan, staged, undo, snaps, j, completed, files, paths)
  {
    hide History, Indexed, OrdinaryPlan, Reverted, Rename, CanMove, Free, Tracked, Renamed, PathsRenamed, Ordinary;
    hide Taken, WriteDone, Moved, Parked;
    UndoFacts(plan, staged, undo, snaps, j, completed, files, paths);
    var from, to := plan[j].from, plan[j].to;
    if undo[j].moved {
      MoveReverts(files, paths, snaps[j], from, to, Taken(plan, staged, j + 1, completed));
      TrackedMove(plan, staged, paths, j, completed);
    } else {
      TrackedNothing(plan, staged, paths, j, completed);
    }
  }

  lemma RemoveUndone(plan: seq<Operation>, staged: map<nat, nat>, undo: seq<Undo>, snaps: seq<Snap>,
                     j: nat, completed: nat, files: Files, paths: seq<Path>)
    requires NextUndo(plan, staged, undo, snaps, j, completed, files, paths) && plan[j].Remove?
    ensures undo[j].backup.Some? ==>
      && undo[j].backup.value == |snaps[j].paths| < |paths| && Free(files, plan[j].path)
      && var backup := paths[undo[j].backup.value];
         UndoneTo(plan, staged, undo, snaps, j, completed, Rename(files, backup, plan[j].path), PathsRenamed(paths, backup, plan[j].path))
    ensures undo[j].backup.None? ==> UndoneTo(plan, staged, undo, snaps, j, completed, files, paths)
  {
    hide History, Indexed, OrdinaryPlan, Reverted, Rename, CanMove, Free, Tracked, Renamed, PathsRenamed, Ordinary;
    hide Taken, WriteDone, Moved, Parked;
    UndoFacts(plan, staged, undo, snaps, j, completed, files, paths);
    var path := plan[j].path;
    if undo[j].backup.Some? {
      var backup := snaps[j + 1].paths[|snaps[j].paths|];
      ParkReverts(files, paths, snaps[j], path, backup, Taken(plan, staged, j + 1, completed));
      TrackedPark(plan, staged, paths, backup, j, completed);
      RevertedLength(files, paths, snaps[j + 1], Taken(plan, staged, j + 1, completed));
    } else {
      TrackedSame(plan, staged, paths, j, completed);
    }
  }

  /** The files once an installed target is removed again. */
  function Uninstalled(files: Files, u: Undo): Files
    requires u.UndoWrite?
  {
    if u.installed then files - {u.path} else files
  }

  /** Removing the target gives the state before the install, its stage taken if the write completed. */
  lemma TargetRemoved(plan: seq<Operation>, staged: map<nat, nat>, undo: seq<Undo>, snaps: seq<Snap>,
                      j: nat, completed: nat, files: Files, paths: seq<Path>)
    requires NextUndo(plan, staged, undo, snaps, j, completed, files, paths) && plan[j].Write?
    ensures Reverted(Uninstalled(files, undo[j]), paths, Mid(snaps[j], plan[j].path, undo[j].backup, snaps[j + 1]), Taken(plan, staged, j, completed))
    ensures j < completed ==> paths[StageOf(staged, j)] == plan[j].path
    ensures |snaps[j].paths| <= |paths|
  {
    UndoFacts(plan, staged, undo, snaps, j, completed, files, paths);
    var mid := Mid(snaps[j], plan[j].path, undo[j].backup, snaps[j + 1]);
    var stage := StageOf(staged, j);
    hide History, Indexed, OrdinaryPlan, Rename, CanMove, Free, Tracked, Reverted, CanInstall;
    if j < completed {
      InstallReverts(files, paths, mid, stage, plan[j].path, Taken(plan, staged, j + 1, completed));
    } else if undo[j].installed {
      LinkReverts(files, paths, mid, stage, plan[j].path);
    }
    RevertedLength(Uninstalled(files, undo[j]), paths, mid, Taken(plan, staged, j, completed));
  }

  lemma RevertedLength(files: Files, paths: seq<Path>, s: Snap, taken: set<nat>)
    requires Reverted(files, paths, s, taken)
    ensures |s.paths| <= |paths|
  {
  }

  lemma WriteUndone(plan: seq<Operation>, staged: map<nat, nat>, undo: seq<Undo>, snaps: seq<Snap>,
                    j: nat, completed: nat, files: Files, paths: seq<Path>)
    requires NextUndo(plan, staged, undo, snaps, j, completed, files, paths) && plan[j].Write?
    ensures var cleared := Uninstalled(files, undo[j]);
      if undo[j].backup.Some?
      then
        && undo[j].backup.value == |snaps[j].paths| < |paths| && Free(cleared, plan[j].path)
        && var backup := paths[undo[j].backup.value];
           UndoneTo(plan, staged, undo, snaps, j, completed, Rename(cleared, backup, plan[j].path), PathsRenamed(paths, backup, plan[j].path))
      else UndoneTo(plan, staged, undo, snaps, j, completed, cleared, paths)
  {
    UndoFacts(plan, staged, undo, snaps, j, completed, files, paths);
    TargetRemoved(plan, staged, undo, snaps, j, completed, files, paths);
    var path := plan[j].path;
    var cleared := Uninstalled(files, undo[j]);
    var taken := Taken(plan, staged, j, completed);
    hide History, Indexed, OrdinaryPlan, Reverted, Rename, CanMove, Free, Tracked, Renamed, PathsRenamed, Ordinary;
    hide Taken, Uninstalled, Installed, Linked, CanInstall;
    if undo[j].backup.Some? {
      var backup := snaps[j + 1].paths[|snaps[j].paths|];
      ParkReverts(cleared, paths, snaps[j], path, backup, taken);
      TrackedPark(plan, staged, paths, backup, j, completed);
    } else {
      TrackedSame(plan, staged, paths, j, completed);
    }
  }

  lemma {:induction false} SnapsGrow(plan: seq<Operation>, staged: map<nat, nat>, undo: seq<Undo>, snaps: seq<Snap>, next: nat, j: nat)
    requires History(plan, staged, undo, snaps, next) && j <= next
    ensures |snaps[0].paths| <= |snaps[j].paths|
  {
    if j > 0 {
      SnapsGrow(plan, staged, undo, snaps, next, j - 1);
      assert OpDone(plan[j - 1], StageOf(staged, j - 1), undo[j - 1], snaps[j - 1], snaps[j - 1 + 1], true);
    }
  }

  /** Cleaning up this artifact deletes `q`. */
  predicate Removes(artifact: Artifact, success: bool, q: Path) {
    if success then artifact.onSuccess && (if artifact.stage then q == artifact.path else artifact.path <= q)
    else artifact.onFailure && q == artifact.path
  }

  ghost predicate RemovedBy(artifacts: seq<Artifact>, n: nat, success: bool, q: Path)
    requires n <= |artifacts|
  {
    exists i :: 0 <= i < n && Removes(artifacts[i], success, q)
  }

  lemma NextIs(plan: seq<Operation>, staged: map<nat, nat>, undo: seq<Undo>, snaps: seq<Snap>,
               j: nat, completed: nat, files: Files, paths: seq<Path>)
    requires UndoneTo(plan, staged, undo, snaps, j + 1, completed, files, paths) && j < |undo| <= completed + 1
    requires |undo| == completed + 1 ==>
      OpDone(plan[completed], StageOf(staged, completed), undo[completed], snaps[completed], snaps[completed + 1], false)
    ensures NextUndo(plan, staged, undo, snaps, j, completed, files, paths)
  {
    hide Reverted, Tracked, Indexed, OrdinaryPlan;
  }

  /** An undo entry is of its operation's kind, and only a backup adds an artifact. */
  lemma MoveKinds(plan: seq<Operation>, staged: map<nat, nat>, undo: seq<Undo>, snaps: seq<Snap>,
                  j: nat, completed: nat, files: Files, paths: seq<Path>)
    requires NextUndo(plan, staged, undo, snaps, j, completed, files, paths)
    ensures undo[j].UndoMkdir? ==> plan[j].Mkdir?
    ensures undo[j].UndoMove? ==> plan[j].Move? && undo[j].from == plan[j].from && undo[j].to == plan[j].to
    ensures undo[j].UndoRemove? ==> plan[j].Remove? && undo[j].path == plan[j].path
    ensures undo[j].UndoWrite? ==> plan[j].Write? && undo[j].path == plan[j].path
    ensures |snaps[j + 1].paths| == |snaps[j].paths| + (if (undo[j].UndoRemove? || undo[j].UndoWrite?) && undo[j].backup.Some? then 1 else 0)
  {
  }

  lemma StagedNext(s: Snap, plan: seq<Operation>, staged: map<nat, nat>, next: nat)
    requires Staged(s, plan, staged, next)
    ensures Staged(s, plan, staged, next + 1)
  {
  }

  lemma InstallDone(op: Operation, stage: nat, u: Undo, s: Snap, mid: Snap)
    requires op.Write? && WriteDone(op, stage, u, s, mid, false) && !u.installed && CanInstall(mid, stage, op.path)
    ensures WriteDone(op, stage, u.(installed := true), s, Linked(mid, stage, op.path), false)
    ensures WriteDone(op, stage, u.(installed := true), s, Installed(mid, stage, op.path), true)
  {
    hide CanMove, CanInstall, Ordinary;
  }

  lemma InstallAnchors(s: Snap, artifacts: seq<Artifact>, dirs: set<Path>, path: Path, plan: seq<Operation>, staged: map<nat, nat>, next: nat)
    requires next < |plan| && plan[next].Write? && Staged(s, plan, staged, next)
    requires CanInstall(s, staged[next], path) && s.paths == Paths(artifacts)
    requires forall i :: 0 <= i < |artifacts| ==> Anchored(s.files, dirs, artifacts[i].path)
    ensures var t := Installed(s, staged[next], path);
      forall i :: 0 <= i < |artifacts| ==> Anchored(t.files, dirs, t.paths[i])
  {
    forall i | 0 <= i < |artifacts| ensures Anchored(Installed(s, staged[next], path).files, dirs, Installed(s, staged[next], path).paths[i]) {
      assert s.paths[i] == artifacts[i].path;
    }
  }

  lemma ParkedElsewhere(p: Path, path: Path, backup: Path)
    requires Ordinary(path) && !Ordinary(backup)
    ensures Renamed(p, path, backup) != path
  {
    if path <= p {
      var j :| 0 <= j < |backup| && !backup[j].Plain?;
      assert Renamed(p, path, backup)[j] == backup[j];
    }
  }

  lemma ParkedApart(s: Snap, path: Path, backup: Path)
    requires CanMove(s, path, backup) && Ordinary(path) && !Ordinary(backup)
    ensures path !in Parked(s, path, backup).files
    ensures forall i :: 0 <= i < |Parked(s, path, backup).paths| ==> Parked(s, path, backup).paths[i] != path
  {
    RenameBack(s.files, path, backup);
    assert path <= path;
    forall i | 0 <= i < |s.paths| ensures Renamed(s.paths[i], path, backup) != path {
      ParkedElsewhere(s.paths[i], path, backup);
    }
  }

  lemma ParkedInstallable(s: Snap, path: Path, backup: Path, plan: seq<Operation>, staged: map<nat, nat>, next: nat)
    requires CanMove(s, path, backup) && Ordinary(path) && !Ordinary(backup)
    requires next < |plan| && plan[next].Write? && Staged(s, plan, staged, next)
    ensures CanInstall(Parked(s, path, backup), staged[next], path)
  {
    ParkedApart(s, path, backup);
    ParkStaged(s, path, backup, plan, staged, next);
    hide Parked, Ordinary, CanMove;
  }

  lemma MovedAnchors(files: Files, dirs': set<Path>, artifacts: seq<Artifact>, from: Path, to: Path)
    requires Free(files, to) && Ordinary(from)
    requires forall i | 0 <= i < |artifacts| ::
      artifacts[i].path in files || (!Ordinary(artifacts[i].path) && Renamed(artifacts[i].path, from, to) in dirs')
    ensures forall i | 0 <= i < |artifacts| :: Anchored(Rename(files, from, to), dirs', Renamed(artifacts[i].path, from, to))
    ensures from in files ==> to in Rename(files, from, to)
  {
    RenameKeys(files, from, to);
    assert Renamed(from, from, to) == to;
    forall i | 0 <= i < |artifacts| && !Ordinary(artifacts[i].path) ensures !Ordinary(Renamed(artifacts[i].path, from, to)) {
      StillMarked(artifacts[i].path, from, to);
    }
  }

  /** A transaction name survives renames of ordinary paths. */
  lemma StillMarked(p: Path, from: Path, to: Path)
    requires !Ordinary(p) && Ordinary(from)
    ensures !Ordinary(Renamed(p, from, to))
  {
    var at :| 0 <= at < |p| && !p[at].Plain?;
    if from <= p {
      assert at >= |from|;
      assert Renamed(p, from, to)[at - |from| + |to|] == p[at];
    }
  }
}

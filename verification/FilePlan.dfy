/**
 The transactional file plan (packages/cli/src/file-plan.ts): staging, the undo
 stack, artifact tracking, rollback and clean-up. Any forward file-system call may
 fail: `budget` calls succeed and the next one does not. A failed call has no
 effect. The calls of a rollback do what the file system then allows: a rename back
 onto a directory can fail, and `rm` of a directory removes it if it is empty
 (`empties`) or refuses.
 */
module FilePlan {
  import opened Wrappers
  import opened FileTree
  import opened FilePlanHistory
  import opened FilePlanEffects
  import opened FilePlanDirectories
  import opened FilePlanRollback

  class Transaction {
    const plan: seq<Operation>
    const uuid: nat -> int
    const empties: bool
    var files: Files
    var dirs: set<Path>
    var artifacts: seq<Artifact>
    var undoStack: seq<Undo>
    var staged: map<nat, nat>
    var budget: nat
    var names: nat
    var nameless: bool
    var createdDirectories: set<Path>
    var stuck: bool
    ghost var snaps: seq<Snap>
    ghost var trees: seq<set<Path>>
    ghost var prepared: set<Path>
    ghost var recorded: seq<set<Path>>

    constructor (plan: seq<Operation>, files: Files, dirs: set<Path>, budget: nat, uuid: nat -> int, empties: bool)
      ensures this.plan == plan && this.files == files && this.dirs == dirs && this.budget == budget && this.empties == empties
      ensures artifacts == [] && undoStack == [] && staged == map[] && createdDirectories == {} && !stuck && !nameless
    {
      this.plan, this.files, this.dirs, this.budget, this.uuid, this.empties := plan, files, dirs, budget, uuid, empties;
      artifacts, undoStack, staged, names, nameless, createdDirectories, stuck := [], [], map[], 0, false, {}, false;
    }

    ghost function Now(): Snap
      reads this`files, this`artifacts
    {
      Snap(files, Paths(artifacts))
    }

    predicate Exists(p: Path)
      reads this`files, this`dirs
    {
      p in files || p in dirs
    }

    predicate IsDirectory(p: Path)
      reads this`dirs
    {
      p in dirs
    }

    /** The directories at every snapshot, and what each undo entry says of them. */
    ghost predicate Standing()
      reads this`files, this`dirs, this`trees, this`snaps, this`undoStack
    {
      && WellFormed(files, dirs) && |trees| == |snaps| == |undoStack| + 1 && trees[|undoStack|] == dirs
      && Rooted(plan, undoStack, snaps, trees, |undoStack|)
    }

    /** What the first `n` operations recorded as created, after what staging did. */
    ghost predicate Noted(n: nat)
      reads this`recorded, this`createdDirectories, this`prepared, this`snaps, this`trees
    {
      && n == |recorded| && Notes(plan, snaps, trees, recorded)
      && createdDirectories == prepared + Union(recorded)
    }

    /** Where a failed operation leaves the directories. */
    ghost predicate Stopped(completed: nat)
      reads this`files, this`dirs, this`trees, this`snaps, this`undoStack, this`recorded, this`createdDirectories, this`prepared
    {
      && Standing() && Noted(|recorded|) && StopsAt(plan, completed, |undoStack|, |recorded|)
    }

    /** Ordinary paths throughout, one stage per write, every artifact in place. */
    ghost predicate Sound()
      reads this`artifacts, this`snaps, this`staged
    {
      && OrdinaryPlan(plan) && |snaps| > 0 && Indexed(plan, staged, |snaps[0].paths|)
      && (forall i :: 0 <= i < |artifacts| ==> artifacts[i].onFailure)
    }

    ghost predicate AllAnchored()
      reads this`files, this`dirs, this`artifacts
    {
      forall i :: 0 <= i < |artifacts| ==> Anchored(files, dirs, artifacts[i].path)
    }

    /** `next` operations are done and nothing is cut short. */
    ghost predicate Valid(next: nat)
      reads this`files, this`dirs, this`artifacts, this`staged, this`undoStack, this`snaps
    {
      && Sound() && AllAnchored() && Staged(Now(), plan, staged, next)
      && History(plan, staged, undoStack, snaps, next)
      && |undoStack| == next && |snaps| == next + 1 && snaps[next] == Now()
    }

    /** Operation `next` has pushed `u` and changed nothing yet. */
    ghost predicate Pending(next: nat, u: Undo)
      reads this`files, this`dirs, this`artifacts, this`staged, this`undoStack, this`snaps
    {
      && Sound() && AllAnchored() && Staged(Now(), plan, staged, next)
      && History(plan, staged, undoStack, snaps, next)
      && next < |plan| && |undoStack| == next + 1 && undoStack[next] == u
      && |snaps| == next + 2 && snaps[next] == Now() && snaps[next + 1] == Now()
    }

    /** What a failed operation leaves: perhaps one more undo entry, for an operation cut short. */
    ghost predicate Interrupted(completed: nat)
      reads this`files, this`dirs, this`artifacts, this`staged, this`undoStack, this`snaps
    {
      && Sound() && History(plan, staged, undoStack, snaps, completed)
      && |undoStack| <= completed + 1 && |undoStack| <= |plan|
      && |snaps| == |undoStack| + 1 && snaps[|undoStack|] == Now()
      && (|undoStack| == completed + 1 ==>
            OpDone(plan[completed], StageOf(staged, completed), undoStack[completed], snaps[completed], snaps[completed + 1], false))
    }

    /** The names still to come are different from each other and used nowhere. */
    ghost predicate Fresh()
      reads this`files, this`dirs, this`names
    {
      FreshNames(files, dirs, uuid, names)
    }

    /** Whether an operation succeeded is decided by what it demands, unless a call failed or no free name was found. */
    ghost predicate Decided(op: Operation, before: Files, beforeDirs: set<Path>, ok: bool)
      reads this`budget, this`nameless
    {
      && (ok ==> Goes(op, before, beforeDirs))
      && (!ok && budget > 0 && !nameless ==> !Goes(op, before, beforeDirs))
    }

    /** One file-system call. */
    method Call() returns (ok: bool)
      modifies this`budget
      ensures ok == (old(budget) > 0) && old(budget) == budget + (if ok then 1 else 0)
    {
      ok := budget > 0;
      if ok {
        budget := budget - 1;
      }
    }

    /**
     `mkdir -p`, refused when the nearest existing ancestor is a file. The missing
     directories, deepest first, are recorded before they are made.
     */
    method EnsureDirectory(path: Path) returns (ok: bool, created: seq<Path>, ghost asked: bool)
      requires WellFormed(files, dirs)
      modifies this`budget, this`dirs, this`createdDirectories
      ensures WellFormed(files, dirs) && (ok ==> asked)
      ensures asked ==> Prefixes(path) !! files.Keys && createdDirectories == old(createdDirectories) + (Prefixes(path) - old(dirs))
      ensures !asked ==> createdDirectories == old(createdDirectories)
      ensures dirs == if ok then old(dirs) + Prefixes(path) else old(dirs)
      ensures ok ==> Chain(created, Prefixes(path) - old(dirs))
      ensures (asked <==> Prefixes(path) !! files.Keys) && (asked && !ok ==> budget == 0)
      ensures old(budget) <= budget + 1 && (old(Fresh()) && Ordinary(path) ==> Fresh())
    {
      created, asked := [], false;
      var n := 0;
      while n <= |path| && !Exists(path[..|path| - n])
        invariant n == |created| <= |path| + 1
        invariant forall i :: 0 <= i < n ==> created[i] == path[..|path| - i] && !Exists(created[i])
      {
        created := created + [path[..|path| - n]];
        n := n + 1;
      }
      if n <= |path| && path[..|path| - n] in files {
        assert path[..|path| - n] in Prefixes(path);
        return false, created, asked;
      }
      MissingIs(files, dirs, path, created);
      createdDirectories := createdDirectories + set p | p in created;
      asked := true;
      MoreDirectories(files, dirs, path);
      if Fresh() && Ordinary(path) {
        FreshDirectories(files, dirs, path, uuid, names);
      }
      ok := Call();
      if ok {
        dirs := dirs + Prefixes(path);
      }
    }

    /** The directory operation `next` needs. */
    method MakeDirectory(next: nat, path: Path) returns (ok: bool, created: seq<Path>)
      requires next < |plan| && !plan[next].Remove? && Valid(next) && Standing() && Noted(next)
      requires Ordinary(path) && Prefixes(path) == Needed(plan[next])
      modifies this`budget, this`dirs, this`createdDirectories, this`recorded
      ensures Valid(next) && WellFormed(files, dirs) && Rooted(plan, undoStack, snaps, trees, next) && |trees| == next + 1 && trees == old(trees)
      ensures if ok then Noted(next + 1) else Stopped(next)
      ensures ok ==> Needed(plan[next]) !! files.Keys && Chain(created, Needed(plan[next]) - trees[next]) && dirs == trees[next] + Needed(plan[next])
      ensures !ok && budget > 0 ==> !(Needed(plan[next]) !! files.Keys)
      ensures old(budget) <= budget + 1 && (old(Fresh()) ==> Fresh())
    {
      hide History, Staged, Rooted, Needed, Prefixes, Chain, OrdinaryPlan, Indexed, WellFormed;
      ghost var asked;
      ghost var before := dirs;
      ok, created, asked := EnsureDirectory(path);
      if asked {
        UnionNext(recorded, Needed(plan[next]) - before);
        recorded := recorded + [Needed(plan[next]) - before];
      }
    }

    /** A transaction name beside `path` that nothing uses, within eight tries. */
    method UniqueSiblingPath(path: Path) returns (r: Option<Path>)
      modifies this`names, this`nameless
      ensures if r.None? then nameless else nameless == old(nameless)
      ensures r.Some? ==> !Exists(r.value) && Parent(r.value) == Parent(path) && (Ordinary(path) ==> TransactionPath(r.value))
      ensures old(Fresh()) && Ordinary(path) ==> r.Some? && Fresh() && Untagged(r.value, uuid, names)
    {
      hide FreshNames, Untagged, Ordinary, TransactionPath;
      var parent := if path == [] then [] else path[..|path| - 1];
      for attempt := 0 to 8
        invariant nameless == old(nameless)
        invariant old(Fresh()) ==> Fresh() && attempt == 0
      {
        if Fresh() {
          FreshSibling(files, dirs, parent, uuid, names);
        }
        var candidate := parent + [Transaction(uuid(names))];
        SiblingIs(path, parent, uuid(names));
        names := names + 1;
        if !Exists(candidate) {
          return Some(candidate);
        }
      }
      nameless := true;
      return None;
    }

    lemma SiblingIs(path: Path, parent: Path, tag: int)
      requires parent == Parent(path)
      ensures Parent(parent + [Transaction(tag)]) == parent
      ensures Ordinary(path) ==> Ordinary(parent) && TransactionPath(parent + [Transaction(tag)])
    {
      var sibling := parent + [Transaction(tag)];
      assert sibling[|parent|].Transaction? && sibling[..|parent|] == parent;
    }

    /** Every artifact at or under `from` follows a rename. */
    method RewriteArtifacts(from: Path, to: Path)
      modifies this`artifacts
      ensures |artifacts| == |old(artifacts)| && Paths(artifacts) == PathsRenamed(Paths(old(artifacts)), from, to)
      ensures forall i :: 0 <= i < |artifacts| ==> artifacts[i] == old(artifacts)[i].(path := artifacts[i].path)
    {
      for i := 0 to |artifacts|
        invariant |artifacts| == |old(artifacts)|
        invariant forall j :: 0 <= j < i ==> artifacts[j] == old(artifacts)[j].(path := Renamed(old(artifacts)[j].path, from, to))
        invariant forall j :: i <= j < |artifacts| ==> artifacts[j] == old(artifacts)[j]
      {
        var path := artifacts[i].path;
        if path == from {
          artifacts := artifacts[i := artifacts[i].(path := to)];
        } else if from <= path {
          artifacts := artifacts[i := artifacts[i].(path := to + path[|from|..])];
        }
      }
    }

    /**
     `rename` onto a path nothing occupies. It fails when the source is gone, when a
     directory would move into itself, and when the target's directory is missing.
     */
    method RenameCall(from: Path, to: Path) returns (ok: bool)
      requires WellFormed(files, dirs)
      modifies this`budget, this`files, this`dirs
      ensures WellFormed(files, dirs)
      ensures ok ==> old(!Exists(to)) && Free(old(files), to) && to != [] && !(from <= to) && files == Rename(old(files), from, to)
      ensures ok ==> dirs == Images(old(dirs), from, to)
      ensures ok && from !in old(files) ==> to in dirs
      ensures !ok ==> files == old(files) && dirs == old(dirs)
      ensures !ok && budget > 0 ==> from <= to || !Exists(from) || Exists(to) || to == [] || Parent(to) !in dirs
      ensures old(budget) <= budget + 1 && (old(Fresh()) && Untagged(to, uuid, names) ==> Fresh())
    {
      ok := Call();
      if !ok || from <= to || !Exists(from) || Exists(to) || to == [] || Parent(to) !in dirs {
        return false;
      }
      RenameKeepsForm(files, dirs, from, to);
      RenamedWhole(from, to);
      if Fresh() && Untagged(to, uuid, names) {
        FreshRename(files, dirs, from, to, uuid, names);
      }
      assert from in dirs ==> to in Images(dirs, from, to);
      dirs := Images(dirs, from, to);
      files := Rename(files, from, to);
    }

    lemma CanMoveHere(from: Path, to: Path)
      requires !Exists(to) && !(from <= to) && AllAnchored() && WellFormed(files, dirs)
      ensures CanMove(Now(), from, to)
    {
      NothingBelow(files, dirs, to);
    }

    /** Push an undo entry before the first change. */
    method PushUndo(next: nat, u: Undo)
      requires Valid(next) && next < |plan|
      requires |trees| == next + 1 && Rooted(plan, undoStack, snaps, trees, next) && WellFormed(files, dirs)
      requires DirDone(plan[next], u, Now(), trees[next], Now(), dirs)
      modifies this`undoStack, this`snaps, this`trees
      ensures Pending(next, u) && old(snaps) <= snaps && Standing() && old(trees) <= trees && |trees| == next + 2
      ensures old(Noted(next + 1)) ==> Noted(next + 1)
    {
      hide OpDone, Staged, OrdinaryPlan, Indexed, Rooted, DirDone, WellFormed;
      undoStack := undoStack + [u];
      snaps := snaps + [Now()];
      trees := trees + [dirs];
      HistoryKept(plan, staged, old(undoStack), old(snaps), undoStack, snaps, next);
      RootedNext(plan, old(undoStack), old(snaps), old(trees), undoStack, snaps, trees, next);
    }

    /** A failure before anything of operation `next` was recorded, and one after its undo entry was pushed. */
    lemma StoppedEarly(next: nat)
      requires Standing() && Noted(next) && |undoStack| == next < |plan|
      ensures Stopped(next)
    {
    }

    lemma StoppedLate(next: nat)
      requires Standing() && Noted(next + 1) && |undoStack| == next + 1 && next < |plan| && !plan[next].Mkdir?
      ensures Stopped(next) && |trees| == next + 2
    {
    }

    lemma StandingFacts(next: nat)
      requires Standing() && |undoStack| == next + 1
      ensures WellFormed(files, dirs) && |trees| == |snaps| == next + 2 && trees[next + 1] == dirs
      ensures Rooted(plan, undoStack, snaps, trees, next + 1)
    {
    }

    lemma RemovalNotes(next: nat)
      requires Valid(next) && Standing() && Noted(next) && next < |plan| && plan[next].Remove?
      ensures |snaps| == |trees| == next + 1 && Noting(plan[next], snaps[next], trees[next], {}) && trees[next] == dirs
      ensures Rooted(plan, undoStack, snaps, trees, next) && WellFormed(files, dirs)
      ensures DirDone(plan[next], UndoRemove(plan[next].path, None), Now(), trees[next], Now(), dirs)
    {
      hide Sound, AllAnchored, Staged, History, Rooted, WellFormed;
    }

    /** The entry of operation `next` and its snapshot have been brought up to date. */
    lemma StandingNext(next: nat, undo: seq<Undo>, was: seq<Snap>, before: seq<set<Path>>)
      requires next < |plan| && |undo| == |undoStack| == next + 1 && |was| == |snaps| == |before| == |trees| == next + 2
      requires Rooted(plan, undo, was, before, next + 1)
      requires undoStack == undo[next := undoStack[next]] && snaps == was[next + 1 := Now()] && trees == before[next + 1 := dirs]
      requires WellFormed(files, dirs) && DirDone(plan[next], undoStack[next], snaps[next], trees[next], Now(), dirs)
      ensures Standing()
    {
      hide DirDone, WellFormed;
      RootedUpTo(plan, undo, was, before, next + 1, next);
      hide Rooted;
      RootedNext(plan, undo, was, before, undoStack, snaps, trees, next);
    }

    /** Before anything changed, an operation may fail. */
    lemma PendingInterrupted(next: nat, u: Undo)
      requires Pending(next, u)
      requires OpDone(plan[next], StageOf(staged, next), u, Now(), Now(), false)
      ensures Interrupted(next)
    {
      hide OpDone, Staged, History;
    }

    method ApplyMkdir(next: nat) returns (ok: bool)
      requires Valid(next) && next < |plan| && plan[next].Mkdir? && Standing() && Noted(next)
      modifies this`budget, this`dirs, this`undoStack, this`snaps, this`createdDirectories, this`recorded, this`trees
      ensures if ok then Valid(next + 1) && Standing() && Noted(next + 1) else Interrupted(next) && Stopped(next)
      ensures old(snaps) <= snaps && old(trees) <= trees
      ensures Decided(plan[next], old(files), old(dirs), ok)
      ensures old(budget) <= budget + 1 && (old(Fresh()) ==> Fresh())
    {
      hide History, Staged, Rooted, Chain, WellFormed, Noted;
      var created;
      ok, created := MakeDirectory(next, plan[next].path);
      if ok {
        PushUndo(next, UndoMkdir(created));
        HistoryNext(plan, staged, undoStack, snaps, next);
        StagedNext(Now(), plan, staged, next);
      }
    }

    method ApplyMove(next: nat) returns (ok: bool)
      requires Valid(next) && next < |plan| && plan[next].Move? && Standing() && Noted(next)
      modifies this`budget, this`dirs, this`files, this`artifacts, this`undoStack, this`snaps, this`createdDirectories, this`recorded, this`trees
      ensures if ok then Valid(next + 1) && Standing() && Noted(next + 1) else Interrupted(next) && Stopped(next)
      ensures old(snaps) <= snaps && old(trees) <= trees
      ensures ok ==> Flagged(old(artifacts), artifacts, {})
      ensures Decided(plan[next], old(files), old(dirs), ok)
      ensures old(budget) <= budget + 3 && (old(Fresh()) ==> Fresh())
    {
      hide History, Staged, Rooted, Chain, WellFormed, Noted, Needed, Interrupted, Stopped, AllAnchored, Fresh;
      var op := plan[next];
      ValidInterrupted(next);
      StoppedEarly(next);
      ok := Call();
      if !ok || !Exists(op.from) || Exists(op.to) {
        return false;
      }
      var created;
      NeedsParent(op);
      ok, created := MakeDirectory(next, Parent(op.to));
      ValidInterrupted(next);
      if ok {
        PushUndo(next, UndoMove(op.from, op.to, false, created));
        ok := CommitMove(next, created);
      }
    }

    lemma OrdinaryParent(p: Path)
      requires Ordinary(p)
      ensures Ordinary(Parent(p))
    {
    }

    lemma NeedsParent(op: Operation)
      ensures op.Move? ==> Needed(op) == Prefixes(Parent(op.to))
      ensures op.Write? ==> Needed(op) == Prefixes(Parent(op.path))
    {
    }

    method CommitMove(next: nat, created: seq<Path>) returns (ok: bool)
      requires next < |plan| && plan[next].Move? && Pending(next, UndoMove(plan[next].from, plan[next].to, false, created))
      requires Standing() && Noted(next + 1)
      requires (plan[next].from in files || plan[next].from in trees[next]) && plan[next].to !in files && plan[next].to !in trees[next]
      modifies this`budget, this`dirs, this`files, this`artifacts, this`undoStack, this`snaps, this`trees
      ensures if ok then Valid(next + 1) && Standing() && Noted(next + 1) else Interrupted(next) && Stopped(next)
      ensures old(snaps)[..next + 1] <= snaps && old(trees)[..next + 1] <= trees
      ensures ok ==> Flagged(old(artifacts), artifacts, {})
      ensures if ok then plan[next].to != [] && !(plan[next].from <= plan[next].to)
              else budget > 0 ==> plan[next].to == [] || plan[next].from <= plan[next].to
      ensures old(budget) <= budget + 1 && (old(Fresh()) ==> Fresh())
    {
      hide History, Staged, Anchored, CanMove, Renamed, Rename, Free, Indexed, Rooted, Needed, Chain, WellFormed, Images, Noting, DirDone;
      var from, to := plan[next].from, plan[next].to;
      ghost var was := Now();
      PendingInterrupted(next, undoStack[next]);
      StoppedLate(next);
      MoveBegun(next, created);
      MovePlace(plan[next], trees[next], dirs);
      assert OrdinaryOperation(plan[next]);
      hide OrdinaryPlan, Ordinary, Sound, AllAnchored, Standing, Interrupted, Stopped, Noted;
      StandingFacts(next);
      ok := Relocate(from, to);
      if ok {
        RecordMoved(next, created, was);
      }
    }

    /** The undo entry of move `next` learns that it took place. */
    method RecordMoved(next: nat, created: seq<Path>, ghost was: Snap)
      requires next < |plan| && plan[next].Move? && |undoStack| == next + 1 && |snaps| == |trees| == next + 2
      requires History(plan, staged, undoStack, snaps, next) && Rooted(plan, undoStack, snaps, trees, next + 1) && Noted(next + 1)
      requires Sound() && AllAnchored() && WellFormed(files, dirs) && Staged(was, plan, staged, next)
      requires snaps[next] == was && OrdinaryOperation(plan[next])
      requires CanMove(was, plan[next].from, plan[next].to) && Now() == Moved(was, plan[next].from, plan[next].to)
      requires (plan[next].from in was.files || plan[next].from in trees[next]) && plan[next].to !in trees[next]
      requires Needed(plan[next]) !! was.files.Keys && Chain(created, Needed(plan[next]) - trees[next])
      requires dirs == Images(trees[next] + Needed(plan[next]), plan[next].from, plan[next].to)
      modifies this`undoStack, this`snaps, this`trees
      ensures Valid(next + 1) && Standing() && Noted(next + 1)
      ensures old(snaps)[..next + 1] <= snaps && old(trees)[..next + 1] <= trees
    {
      hide History, Staged, Anchored, CanMove, Renamed, Rename, Free, Indexed, Rooted, Needed, Chain, WellFormed, Images, DirDone;
      hide OrdinaryPlan, Ordinary, AllAnchored, Notes, Standing;
      var from, to := plan[next].from, plan[next].to;
      undoStack := undoStack[next := UndoMove(from, to, true, created)];
      snaps := snaps[next + 1 := Now()];
      trees := trees[next + 1 := dirs];
      MoveStaged(was, from, to, plan, staged, next);
      StagedNext(Now(), plan, staged, next);
      HistoryKept(plan, staged, old(undoStack), old(snaps), undoStack, snaps, next);
      HistoryNext(plan, staged, undoStack, snaps, next);
      MovedDone(plan[next], created, was, trees[next], Now(), dirs);
      StandingNext(next, old(undoStack), old(snaps), old(trees));
      NotesKept(plan, old(snaps), old(trees), snaps, trees, recorded);
    }

    lemma MovePlace(op: Operation, before: set<Path>, after: set<Path>)
      requires op.Move? && after == before + Needed(op) && op.to !in before
      ensures op.to != [] ==> Parent(op.to) in after && op.to !in after
      ensures op.to == [] ==> op.to in after
    {
      InPrefixes(Parent(op.to), Parent(op.to));
      InPrefixes(op.to, Parent(op.to));
    }

    lemma MoveBegun(next: nat, created: seq<Path>)
      requires next < |plan| && plan[next].Move? && Pending(next, UndoMove(plan[next].from, plan[next].to, false, created)) && Standing()
      ensures Needed(plan[next]) !! files.Keys && Chain(created, Needed(plan[next]) - trees[next]) && dirs == trees[next] + Needed(plan[next])
    {
      RootedUpTo(plan, undoStack, snaps, trees, next + 1, next);
      DirDoneAt(plan, undoStack, snaps, trees, next + 1, next);
    }

    /** Rename, and let every artifact follow. */
    method Relocate(from: Path, to: Path) returns (ok: bool)
      requires Sound() && AllAnchored() && Ordinary(from) && WellFormed(files, dirs)
      modifies this`budget, this`dirs, this`files, this`artifacts
      ensures ok ==> CanMove(old(Now()), from, to) && Now() == Moved(old(Now()), from, to)
      ensures ok ==> Sound() && AllAnchored() && |artifacts| == old(|artifacts|)
      ensures ok ==> (if from in old(files) then to in files else to in dirs)
      ensures ok ==> dirs == Images(old(dirs), from, to) && old(to !in dirs)
      ensures !ok ==> Now() == old(Now()) && artifacts == old(artifacts) && dirs == old(dirs)
      ensures ok ==> Flagged(old(artifacts), artifacts, {})
      ensures WellFormed(files, dirs)
      ensures ok ==> to != [] && !(from <= to)
      ensures !ok && budget > 0 ==> from <= to || !Exists(from) || Exists(to) || to == [] || Parent(to) !in dirs
      ensures old(budget) <= budget + 1 && (old(Fresh()) && Untagged(to, uuid, names) ==> Fresh())
    {
      hide CanMove, OrdinaryPlan, Indexed, Renamed, Rename, Free, WellFormed;
      ghost var before := artifacts;
      ghost var was := Now();
      ghost var old_dirs := dirs;
      if !Exists(to) && !(from <= to) {
        CanMoveHere(from, to);
      }
      ok := RenameCall(from, to);
      if ok {
        forall p | p in old_dirs ensures Renamed(p, from, to) in dirs {
        }
        MovedAnchors(was.files, dirs, before, from, to);
        RewriteArtifacts(from, to);
        assert forall i :: 0 <= i < |before| ==> artifacts[i].path == Paths(artifacts)[i] == Renamed(before[i].path, from, to);
      }
    }

    /** Rename `path` to a fresh backup and make the backup an artifact. */
    method MoveAside(path: Path, backup: Path) returns (ok: bool)
      requires Sound() && AllAnchored() && Ordinary(path) && TransactionPath(backup) && WellFormed(files, dirs)
      modifies this`budget, this`dirs, this`files, this`artifacts
      ensures ok ==> CanMove(old(Now()), path, backup) && Now() == Parked(old(Now()), path, backup)
      ensures ok ==> Sound() && AllAnchored() && |artifacts| == old(|artifacts|) + 1
      ensures ok ==> dirs == Images(old(dirs), path, backup) && old(backup !in dirs)
      ensures !ok ==> Now() == old(Now()) && artifacts == old(artifacts) && dirs == old(dirs)
      ensures ok ==> Flagged(old(artifacts), artifacts, {})
      ensures WellFormed(files, dirs)
      ensures ok ==> !(path <= backup)
      ensures !ok && budget > 0 ==> path <= backup || !Exists(path) || Exists(backup) || backup == [] || Parent(backup) !in dirs
      ensures old(budget) <= budget + 1 && (old(Fresh()) && Untagged(backup, uuid, names) ==> Fresh())
    {
      hide OrdinaryPlan, Indexed, Ordinary, Renamed, Rename, WellFormed, Images;
      ok := Relocate(path, backup);
      if ok {
        ghost var renamed := artifacts;
        artifacts := artifacts + [Artifact(backup, false, true, true)];
        assert Paths(artifacts) == Paths(renamed) + [backup];
      }
    }

    method ApplyRemove(next: nat) returns (ok: bool)
      requires Valid(next) && next < |plan| && plan[next].Remove? && Standing() && Noted(next)
      modifies this`budget, this`dirs, this`files, this`artifacts, this`undoStack, this`snaps, this`names, this`nameless, this`recorded, this`trees
      ensures if ok then Valid(next + 1) && Standing() && Noted(next + 1) else Interrupted(next) && Stopped(next)
      ensures old(snaps) <= snaps && old(trees) <= trees
      ensures ok ==> Flagged(old(artifacts), artifacts, {})
      ensures Decided(plan[next], old(files), old(dirs), ok)
      ensures old(budget) <= budget + 2 && (old(Fresh()) ==> Fresh() && nameless == old(nameless))
    {
      hide History, Staged, Rooted, WellFormed, Noting, Indexed, OrdinaryPlan, Ordinary, Noted, Standing, Interrupted, Stopped, AllAnchored, Fresh;
      var path := plan[next].path;
      OpIsOrdinary(plan, next);
      ValidInterrupted(next);
      StoppedEarly(next);
      ok := Call();
      if !ok || !Exists(path) {
        return false;
      }
      var backup := UniqueSiblingPath(path);
      if backup.None? {
        return false;
      }
      BeginRemove(next);
      ok := CommitRemove(next, backup.value);
    }

    /** A removal records no directory. */
    method BeginRemove(next: nat)
      requires Valid(next) && next < |plan| && plan[next].Remove? && Standing() && Noted(next)
      modifies this`undoStack, this`snaps, this`recorded, this`trees
      ensures Pending(next, UndoRemove(plan[next].path, None)) && Standing() && Noted(next + 1)
      ensures |old(snaps)| == |old(trees)| == next + 1 && |trees| == next + 2 && trees[next] == dirs
      ensures old(snaps) <= snaps && old(trees) <= trees
    {
      hide Valid, Pending, Rooted, WellFormed, Noted, Standing, DirDone, Noting;
      RemovalNotes(next);
      NoteNothing(next);
      PushUndo(next, UndoRemove(plan[next].path, None));
    }

    ghost method NoteNothing(next: nat)
      requires next < |plan| && next < |snaps| && next < |trees| && Noting(plan[next], snaps[next], trees[next], {}) && Noted(next)
      modifies this`recorded
      ensures Noted(next + 1)
    {
      hide Noting;
      UnionNext(recorded, {});
      recorded := recorded + [{}];
    }

    method CommitRemove(next: nat, backup: Path) returns (ok: bool)
      requires next < |plan| && plan[next].Remove? && Pending(next, UndoRemove(plan[next].path, None)) && TransactionPath(backup)
      requires Standing() && Noted(next + 1) && trees[next] == dirs
      requires Exists(plan[next].path) && !Exists(backup) && Parent(backup) == Parent(plan[next].path)
      modifies this`budget, this`dirs, this`files, this`artifacts, this`undoStack, this`snaps, this`trees
      ensures if ok then Valid(next + 1) && Standing() && Noted(next + 1) else Interrupted(next) && Stopped(next)
      ensures old(snaps)[..next + 1] <= snaps && old(trees)[..next + 1] <= trees
      ensures ok ==> Flagged(old(artifacts), artifacts, {})
      ensures if ok then plan[next].path != [] else budget > 0 ==> plan[next].path == []
      ensures old(budget) <= budget + 1 && (old(Fresh()) && Untagged(backup, uuid, names) ==> Fresh())
    {
      hide History, Staged, CanMove, Anchored, Ordinary, Renamed, Rename, Free, Indexed, Rooted, WellFormed, Images, Noting, DirDone;
      var path := plan[next].path;
      ghost var was := Now();
      PendingInterrupted(next, undoStack[next]);
      StoppedLate(next);
      assert OrdinaryOperation(plan[next]);
      StandingFacts(next);
      BackupPlace(path, backup);
      hide Sound, AllAnchored, Standing, Interrupted, Stopped, Noted;
      ok := MoveAside(path, backup);
      if ok {
        RecordRemoved(next, backup, was);
      }
    }

    /** The undo entry of removal `next` learns of the backup. */
    method RecordRemoved(next: nat, backup: Path, ghost was: Snap)
      requires next < |plan| && plan[next].Remove? && |undoStack| == next + 1 && |snaps| == |trees| == next + 2
      requires History(plan, staged, undoStack, snaps, next) && Rooted(plan, undoStack, snaps, trees, next + 1) && Noted(next + 1)
      requires Sound() && AllAnchored() && WellFormed(files, dirs) && Staged(was, plan, staged, next) && |artifacts| > 0
      requires snaps[next] == was && OrdinaryOperation(plan[next]) && TransactionPath(backup)
      requires CanMove(was, plan[next].path, backup) && Now() == Parked(was, plan[next].path, backup)
      requires plan[next].path in was.files || plan[next].path in trees[next]
      requires backup !in trees[next] && Parent(backup) == Parent(plan[next].path) && dirs == Images(trees[next], plan[next].path, backup)
      modifies this`undoStack, this`snaps, this`trees
      ensures Valid(next + 1) && Standing() && Noted(next + 1)
      ensures old(snaps)[..next + 1] <= snaps && old(trees)[..next + 1] <= trees
    {
      hide History, Staged, CanMove, Anchored, Ordinary, Renamed, Rename, Free, Indexed, Rooted, WellFormed, Images, DirDone;
      hide OrdinaryPlan, AllAnchored, Notes, Standing;
      var path := plan[next].path;
      undoStack := undoStack[next := UndoRemove(path, Some(|artifacts| - 1))];
      snaps := snaps[next + 1 := Now()];
      trees := trees[next + 1 := dirs];
      ParkStaged(was, path, backup, plan, staged, next);
      StagedNext(Now(), plan, staged, next);
      HistoryKept(plan, staged, old(undoStack), old(snaps), undoStack, snaps, next);
      HistoryNext(plan, staged, undoStack, snaps, next);
      RemovedDone(plan[next], was, trees[next], Now(), dirs);
      StandingNext(next, old(undoStack), old(snaps), old(trees));
      NotesKept(plan, old(snaps), old(trees), snaps, trees, recorded);
    }

    /** A backup's place is there, and it is not below what it replaces, unless that is the root. */
    lemma BackupPlace(path: Path, backup: Path)
      requires WellFormed(files, dirs) && Exists(path) && Ordinary(path) && TransactionPath(backup) && Parent(backup) == Parent(path)
      ensures backup != [] && (path <= backup <==> path == []) && (path != [] ==> Parent(backup) in dirs)
    {
      if path != [] {
        assert Above(Parent(path), path);
        assert |path| == |backup| && (path <= backup ==> path == backup);
      }
    }

    /** Write `next` has made room for its target, which its stage can now take. */
    ghost predicate HalfWritten(next: nat)
      reads this
    {
      && Sound() && AllAnchored() && Staged(Now(), plan, staged, next)
      && History(plan, staged, undoStack, snaps, next)
      && next < |plan| && plan[next].Write? && |undoStack| == next + 1
      && |snaps| == next + 2 && snaps[next + 1] == Now()
      && undoStack[next].UndoWrite? && !undoStack[next].installed
      && WriteDone(plan[next], StageOf(staged, next), undoStack[next], snaps[next], Now(), false)
      && CanInstall(Now(), StageOf(staged, next), plan[next].path)
    }

    /** Its target's directory is there and its target is none. */
    ghost predicate HalfPlaced(next: nat)
      reads this
    {
      && Standing() && Noted(next + 1) && next < |plan| && plan[next].Write? && |undoStack| == next + 1
      && plan[next].path !in dirs && Needed(plan[next]) <= dirs
    }

    method ApplyWrite(next: nat) returns (ok: bool)
      requires Valid(next) && next < |plan| && plan[next].Write? && Standing() && Noted(next)
      modifies this`budget, this`dirs, this`files, this`artifacts, this`undoStack, this`snaps, this`names, this`nameless, this`createdDirectories, this`recorded, this`trees
      ensures if ok then Valid(next + 1) && Standing() && Noted(next + 1) else Interrupted(next) && Stopped(next)
      ensures old(snaps) <= snaps && old(trees) <= trees
      ensures ok ==> Flagged(old(artifacts), artifacts, {StageOf(staged, next)})
      ensures Decided(plan[next], old(files), old(dirs), ok)
      ensures old(budget) <= budget + 7 && (old(Fresh()) ==> Fresh() && nameless == old(nameless))
    {
      hide History, Staged, Flagged, OrdinaryPlan, Indexed, Rooted, Chain, WellFormed, Noted, Needed, HalfPlaced, Goes, Fresh, Standing, Valid, Pending, HalfWritten, Interrupted, Stopped;
      var op := plan[next];
      var created;
      NeedsParent(op);
      WriteStarts(next);
      OpIsOrdinary(plan, next);
      OrdinaryParent(op.path);
      WriteGoes(op, files, dirs);
      ok, created := MakeDirectory(next, Parent(op.path));
      if !ok {
        ValidInterrupted(next);
        return;
      }
      PushUndo(next, UndoWrite(op.path, false, None, created));
      ghost var before := artifacts;
      ok := MakeRoom(next, created);
      if ok {
        ghost var made := artifacts;
        ok := Install(next);
        if ok {
          FlaggedBoth(before, made, artifacts, {StageOf(staged, next)});
        }
      }
    }

    lemma ValidInterrupted(next: nat)
      requires Valid(next) && next < |plan|
      ensures Interrupted(next)
    {
      hide History, Staged, Indexed, OrdinaryPlan;
    }

    lemma WriteGoes(op: Operation, files: Files, dirs: set<Path>)
      requires op.Write?
      ensures Goes(op, files, dirs) <==>
        Needed(op) !! files.Keys && op.path !in dirs + Needed(op) && (op.path in files ==> op.overwrite)
    {
    }

    lemma WriteStarts(next: nat)
      requires Valid(next) && Standing() && next < |plan| && plan[next].Write?
      ensures |trees| == next + 1 && trees[next] == dirs && WellFormed(files, dirs) && OrdinaryPlan(plan)
      ensures StageOf(staged, next) < |artifacts| && |snaps| == next + 1
    {
      hide Rooted, WellFormed, History, OrdinaryPlan, Indexed, AllAnchored;
    }

    /** Refuse a directory or an unexpected file; set an overwritten file aside. */
    method MakeRoom(next: nat, created: seq<Path>) returns (ok: bool)
      requires next < |plan| && plan[next].Write? && Pending(next, UndoWrite(plan[next].path, false, None, created))
      requires Standing() && Noted(next + 1)
      modifies this`budget, this`dirs, this`files, this`artifacts, this`undoStack, this`snaps, this`names, this`nameless, this`trees
      ensures if ok then HalfWritten(next) && HalfPlaced(next) else Interrupted(next) && Stopped(next)
      ensures old(snaps)[..next + 1] <= snaps && old(trees)[..next + 1] <= trees
      ensures ok ==> Flagged(old(artifacts), artifacts, {})
      ensures ok ==> old(plan[next].path !in dirs) && (old(plan[next].path in files) ==> plan[next].overwrite)
      ensures !ok && budget > 0 && !nameless ==> old(plan[next].path in dirs) || (old(plan[next].path in files) && !plan[next].overwrite)
      ensures old(budget) <= budget + 4 && (old(Fresh()) ==> Fresh() && nameless == old(nameless))
    {
      hide History, Rooted, Noting, Needed, Chain, Staged, Sound, AllAnchored, OpDone, CanInstall, Noted, Notes, Stopped, Fresh, Indexed, OrdinaryPlan;
      StageFacts(next, created);
      WriteBegun(next, created);
      StoppedLate(next);
      var op := plan[next];
      ok := Call();
      var existing := Exists(op.path);
      PendingInterrupted(next, undoStack[next]);
      if !ok || IsDirectory(op.path) || (existing && !op.overwrite) {
        return false;
      }
      if existing {
        ok := Call();
        if !ok {
          return;
        }
        ok := SetAside(next, created);
      }
    }

    lemma StageFacts(next: nat, created: seq<Path>)
      requires next < |plan| && plan[next].Write? && Pending(next, UndoWrite(plan[next].path, false, None, created)) && WellFormed(files, dirs)
      ensures next in staged && staged[next] < |artifacts|
      ensures OpDone(plan[next], StageOf(staged, next), undoStack[next], Now(), Now(), false)
      ensures !Exists(plan[next].path) ==> CanInstall(Now(), StageOf(staged, next), plan[next].path)
    {
      if !Exists(plan[next].path) {
        NothingBelow(files, dirs, plan[next].path);
      }
      hide WellFormed;
    }

    lemma WriteBegun(next: nat, created: seq<Path>)
      requires next < |plan| && plan[next].Write? && Pending(next, UndoWrite(plan[next].path, false, None, created)) && Standing()
      ensures Needed(plan[next]) !! files.Keys && Chain(created, Needed(plan[next]) - trees[next]) && dirs == trees[next] + Needed(plan[next])
    {
      RootedUpTo(plan, undoStack, snaps, trees, next + 1, next);
      DirDoneAt(plan, undoStack, snaps, trees, next + 1, next);
    }

    /** Back up the overwritten file, then copy its mode to the stage. */
    method SetAside(next: nat, created: seq<Path>) returns (ok: bool)
      requires next < |plan| && plan[next].Write? && Pending(next, UndoWrite(plan[next].path, false, None, created))
      requires Standing() && Noted(next + 1) && plan[next].path in files
      modifies this`budget, this`dirs, this`files, this`artifacts, this`undoStack, this`snaps, this`names, this`nameless, this`trees
      ensures if ok then HalfWritten(next) && HalfPlaced(next) else Interrupted(next) && Stopped(next)
      ensures old(snaps)[..next + 1] <= snaps && old(trees)[..next + 1] <= trees
      ensures ok ==> Flagged(old(artifacts), artifacts, {})
      ensures ok || budget == 0 || nameless
      ensures old(budget) <= budget + 2 && (old(Fresh()) ==> Fresh() && nameless == old(nameless))
    {
      hide History, Staged, CanInstall, Ordinary, Indexed, Standing, OrdinaryPlan, WriteDone, Noted, Needed, Fresh, Untagged;
      StageFacts(next, created) by {
        StandingFacts(next);
      }
      StoppedLate(next);
      PendingInterrupted(next, undoStack[next]);
      OpIsOrdinary(plan, next);
      var backup := UniqueSiblingPath(plan[next].path);
      if backup.None? {
        return false;
      }
      ok := CommitAside(next, created, backup.value);
      if ok {
        StoppedLate(next);
        HalfInterrupted(next);
        ok := Call();
      }
    }

    method CommitAside(next: nat, created: seq<Path>, backup: Path) returns (ok: bool)
      requires next < |plan| && plan[next].Write? && Pending(next, UndoWrite(plan[next].path, false, None, created))
      requires Standing() && Noted(next + 1) && plan[next].path in files && TransactionPath(backup) && Parent(backup) == Parent(plan[next].path)
      requires !Exists(backup)
      modifies this`budget, this`dirs, this`files, this`artifacts, this`undoStack, this`snaps, this`trees
      ensures if ok then HalfWritten(next) && HalfPlaced(next) else Interrupted(next) && Stopped(next)
      ensures old(snaps)[..next + 1] <= snaps && old(trees)[..next + 1] <= trees
      ensures ok ==> Flagged(old(artifacts), artifacts, {})
      ensures ok || budget == 0
      ensures old(budget) <= budget + 1 && (old(Fresh()) && Untagged(backup, uuid, names) ==> Fresh())
    {
      hide History, Staged, Anchored, CanMove, CanInstall, Ordinary, Renamed, Rename, Free, Indexed, Rooted, Needed, Chain;
      hide WellFormed, Images, DirDone, OrdinaryPlan, Standing, AllAnchored, Interrupted, Stopped, Notes, Noted, HalfWritten, HalfPlaced;
      StandingFacts(next);
      var path := plan[next].path;
      StageFacts(next, created);
      WriteBegun(next, created);
      StoppedLate(next);
      PendingInterrupted(next, undoStack[next]);
      OpIsOrdinary(plan, next);
      ghost var was := Now();
      NothingBelowFile(files, dirs, path);
      NothingMoves(dirs, path, backup);
      FileIsNoDirectory(files, dirs, path);
      BackupPlace(path, backup);
      NotTheRoot(plan[next]);
      ok := MoveAside(path, backup);
      if ok {
        RecordAside(next, created, backup, was);
      }
    }

    lemma NotTheRoot(op: Operation)
      requires op.Write? && Needed(op) !! files.Keys && op.path in files
      ensures op.path != []
    {
      InPrefixes([], []);
    }

    /** The undo entry of write `next` learns of the backup. */
    method RecordAside(next: nat, created: seq<Path>, backup: Path, ghost was: Snap)
      requires next < |plan| && plan[next].Write? && |undoStack| == next + 1 && |snaps| == |trees| == next + 2
      requires History(plan, staged, undoStack, snaps, next) && Rooted(plan, undoStack, snaps, trees, next + 1) && Noted(next + 1)
      requires Sound() && AllAnchored() && WellFormed(files, dirs) && Staged(was, plan, staged, next) && next in staged && staged[next] < |was.paths|
      requires snaps[next] == was && OrdinaryOperation(plan[next]) && TransactionPath(backup) && |artifacts| > 0
      requires CanMove(was, plan[next].path, backup) && Now() == Parked(was, plan[next].path, backup)
      requires plan[next].path in was.files && plan[next].path !in dirs && backup !in trees[next] && Parent(backup) == Parent(plan[next].path)
      requires Needed(plan[next]) !! was.files.Keys && Chain(created, Needed(plan[next]) - trees[next]) && dirs == trees[next] + Needed(plan[next])
      modifies this`undoStack, this`snaps, this`trees
      ensures HalfWritten(next) && HalfPlaced(next)
      ensures old(snaps)[..next + 1] <= snaps && old(trees)[..next + 1] <= trees
    {
      hide History, Staged, Anchored, CanMove, CanInstall, Ordinary, Renamed, Rename, Free, Indexed, Rooted, Needed, Chain;
      hide WellFormed, Images, DirDone, OrdinaryPlan, Standing, AllAnchored, Notes;
      var path := plan[next].path;
      undoStack := undoStack[next := UndoWrite(path, false, Some(|artifacts| - 1), created)];
      snaps := snaps[next + 1 := Now()];
      trees := trees[next + 1 := dirs];
      HistoryKept(plan, staged, old(undoStack), old(snaps), undoStack, snaps, next);
      AsideDone(plan[next], created, |artifacts| - 1, was, trees[next], Now(), dirs);
      StandingNext(next, old(undoStack), old(snaps), old(trees));
      NotesKept(plan, old(snaps), old(trees), snaps, trees, recorded);
      ParkStaged(was, path, backup, plan, staged, next);
      ParkedInstallable(was, path, backup, plan, staged, next);
    }

    /**
     Put the staged file at its target: a rename over the gap an overwritten file
     left, a link and an unlink otherwise.
     */
    method Install(next: nat) returns (ok: bool)
      requires HalfWritten(next) && HalfPlaced(next)
      modifies this`budget, this`files, this`artifacts, this`undoStack, this`snaps, this`trees
      ensures if ok then Valid(next + 1) && Standing() && Noted(next + 1) else Interrupted(next) && Stopped(next)
      ensures old(snaps)[..next + 1] <= snaps && old(trees)[..next + 1] <= trees
      ensures ok ==> Flagged(old(artifacts), artifacts, {StageOf(staged, next)})
      ensures ok || budget == 0
      ensures old(budget) <= budget + 2 && (old(Fresh()) ==> Fresh())
    {
      hide OpDone, History, Staged, WriteDone, Anchored, CanInstall, Standing, Noted;
      StoppedLate(next);
      ok := Call();
      StoppedLate(next);
      if !ok {
        HalfInterrupted(next);
        return;
      }
      ghost var was := Now();
      LinkStage(next);
      if undoStack[next].backup.None? {
        ok := Call();
        StoppedLate(next);
        if !ok {
          return;
        }
      }
      DropStage(next, was);
    }

    lemma HalfInterrupted(next: nat)
      requires HalfWritten(next)
      ensures Interrupted(next)
    {
      hide History, WriteDone;
    }

    /** The target exists; the stage name is still there. */
    ghost predicate HalfLinked(next: nat, was: Snap)
      reads this
    {
      && Interrupted(next) && next < |plan| && plan[next].Write? && |undoStack| == next + 1
      && undoStack[next].UndoWrite? && next in staged && CanInstall(was, staged[next], plan[next].path)
      && Now() == Linked(was, staged[next], plan[next].path)
      && WriteDone(plan[next], staged[next], undoStack[next], snaps[next], Installed(was, staged[next], plan[next].path), true)
      && Staged(was, plan, staged, next)
      && forall i :: 0 <= i < |artifacts| ==> Anchored(was.files, dirs, artifacts[i].path)
    }

    /** An installation changes nothing a directory entry says. */
    lemma DirDoneKept(next: nat, u: Undo, t: Snap)
      requires Standing() && next < |plan| && |undoStack| == next + 1 && plan[next].Write? && undoStack[next].UndoWrite? && u.UndoWrite?
      requires u == undoStack[next].(installed := u.installed)
      requires |t.paths| == |snaps[next + 1].paths|
      requires u.backup.Some? && |snaps[next].paths| < |t.paths| ==> t.paths[|snaps[next].paths|] == snaps[next + 1].paths[|snaps[next].paths|]
      ensures DirDone(plan[next], u, snaps[next], trees[next], t, dirs)
    {
      DirDoneAt(plan, undoStack, snaps, trees, next + 1, next);
      hide WellFormed, Chain, Needed;
    }

    lemma StageIndex(next: nat)
      requires HalfWritten(next)
      ensures next in staged && StageOf(staged, next) == staged[next] < |artifacts|
      ensures Now().paths[staged[next]] == artifacts[staged[next]].path && artifacts[staged[next]].path in files
    {
      hide History, WriteDone, Anchored, OrdinaryPlan, Indexed;
    }

    method LinkStage(next: nat)
      requires HalfWritten(next) && HalfPlaced(next)
      modifies this`files, this`undoStack, this`snaps, this`trees
      ensures HalfLinked(next, old(Now())) && old(snaps)[..next + 1] <= snaps && old(trees)[..next + 1] <= trees
      ensures Standing() && Noted(next + 1)
      ensures old(Fresh()) ==> Fresh()
    {
      hide History, Staged, WriteDone, Anchored, OrdinaryPlan, Indexed, Rooted, WellFormed, Noting, DirDone, Needed, CanInstall, Standing, FreshNames, Untagged;
      StageIndex(next);
      StandingFacts(next);
      var op := plan[next];
      ghost var was := Now();
      var stage := artifacts[staged[next]].path;
      InstallDone(op, staged[next], undoStack[next], snaps[next], was);
      DirDoneKept(next, undoStack[next].(installed := true), Linked(was, staged[next], op.path));
      TargetsPlace(op, dirs);
      OneMoreFile(files, dirs, op.path, files[stage]);
      OpIsOrdinary(plan, next);
      if Fresh() {
        OrdinaryUntagged(op.path, uuid, names);
        FreshFile(files, dirs, op.path, files[stage], uuid, names);
      }
      files := files[op.path := files[stage]];
      undoStack := undoStack[next := undoStack[next].(installed := true)];
      snaps := snaps[next + 1 := Now()];
      trees := trees[next + 1 := dirs];
      HistoryKept(plan, staged, old(undoStack), old(snaps), undoStack, snaps, next);
      StandingNext(next, old(undoStack), old(snaps), old(trees));
    }

    lemma TargetsPlace(op: Operation, dirs: set<Path>)
      requires op.Write? && Needed(op) <= dirs && op.path !in dirs
      ensures op.path != [] && Parent(op.path) in dirs
    {
      InPrefixes(Parent(op.path), Parent(op.path));
    }

    method DropStage(next: nat, ghost was: Snap)
      requires HalfLinked(next, was) && Standing() && Noted(next + 1)
      modifies this`files, this`artifacts, this`snaps
      ensures Valid(next + 1) && old(snaps)[..next + 1] <= snaps
      ensures Flagged(old(artifacts), artifacts, {StageOf(staged, next)})
      ensures Standing() && Noted(next + 1)
      ensures old(Fresh()) ==> Fresh()
    {
      hide History, Staged, WriteDone, Anchored, OrdinaryPlan, Indexed, Rooted, WellFormed, Noting, DirDone, Standing, CanInstall;
      StandingFacts(next);
      var op := plan[next];
      var at := staged[next];
      LinkedStage(next, was);
      var stage := artifacts[at].path;
      InstallStaged(was, op.path, plan, staged, next, |snaps[0].paths|);
      InstallAnchors(was, artifacts, dirs, op.path, plan, staged, next);
      InstalledStanding(next, was);
      if Fresh() {
        FreshWithout(files, dirs, {stage}, uuid, names);
      }
      files := files - {stage};
      artifacts := artifacts[at := artifacts[at].(path := op.path, onSuccess := false)];
      assert Paths(artifacts) == was.paths[at := op.path];
      snaps := snaps[next + 1 := Now()];
      HistoryKept(plan, staged, old(undoStack), old(snaps), undoStack, snaps, next);
      HistoryNext(plan, staged, undoStack, snaps, next);
      assert trees == trees[next + 1 := dirs] && undoStack == undoStack[next := undoStack[next]];
      StandingNext(next, undoStack, old(snaps), trees);
      assert forall i :: 0 <= i < |artifacts| ==> artifacts[i].path == Paths(artifacts)[i];
    }

    lemma LinkedStage(next: nat, was: Snap)
      requires HalfLinked(next, was)
      ensures staged[next] < |artifacts| && was.paths == Paths(artifacts) && was.paths[staged[next]] == artifacts[staged[next]].path
      ensures Installed(was, staged[next], plan[next].path) == Snap(files - {artifacts[staged[next]].path}, was.paths[staged[next] := plan[next].path])
    {
      hide History, Staged, WriteDone, Anchored, OrdinaryPlan, Indexed;
    }

    lemma InstalledStanding(next: nat, was: Snap)
      requires HalfLinked(next, was) && Standing()
      ensures var t := Installed(was, staged[next], plan[next].path);
        WellFormed(t.files, dirs) && DirDone(plan[next], undoStack[next], snaps[next], trees[next], t, dirs)
    {
      var at := staged[next];
      FewerFiles(files, dirs, {was.paths[at]});
      hide WellFormed, Rooted, History, Staged, Anchored, OrdinaryPlan, Indexed;
      assert at < |snaps[next].paths|;
      DirDoneKept(next, undoStack[next], Installed(was, at, plan[next].path));
    }

    // ----- rollback -----

    function Current(): World
      reads this
    {
      World(files, dirs, artifacts, stuck)
    }

    /** `rm` without `recursive`. */
    method Rm(p: Path)
      modifies this`files, this`dirs
      ensures Current() == Removed(old(Current()), p, empties)
    {
      if p in files {
        files := files - {p};
      } else if p in dirs && empties && IsEmpty(Current(), p) {
        dirs := dirs - {p};
      }
    }

    /** Remove the directories one operation made, deepest first. */
    method SweepCreated(created: seq<Path>)
      modifies this`files, this`dirs
      ensures Current() == Swept(old(Current()), created, empties)
    {
      for i := 0 to |created|
        invariant Swept(Current(), created[i..], empties) == Swept(old(Current()), created, empties)
      {
        assert created[i..][0] == created[i] && created[i..][1..] == created[i + 1..];
        Rm(created[i]);
      }
    }

    /** Rename back, and let the artifacts follow; a failure is reported, and the rollback goes on. */
    method Return(from: Path, to: Path)
      modifies this`files, this`dirs, this`artifacts, this`stuck
      ensures Current() == Returned(old(Current()), from, to)
    {
      if !CanReturn(Current(), from, to) {
        stuck := true;
        return;
      }
      files := Rename(Without(files, to), from, to);
      dirs := Images(dirs - {to}, from, to);
      ghost var before := artifacts;
      RewriteArtifacts(from, to);
      assert artifacts == Rewritten(before, from, to) by {
        assert forall i :: 0 <= i < |artifacts| ==> artifacts[i].path == Paths(artifacts)[i] == Renamed(before[i].path, from, to);
      }
    }

    /** Bring a backup back; the clean-up no longer owns it. */
    method ReturnBackup(b: nat, path: Path)
      modifies this`files, this`dirs, this`artifacts, this`stuck
      ensures Current() == BackupReturned(old(Current()), b, path)
    {
      if b >= |artifacts| || !CanReturn(Current(), artifacts[b].path, path) {
        stuck := true;
        return;
      }
      Return(artifacts[b].path, path);
      artifacts := artifacts[b := artifacts[b].(onSuccess := false, onFailure := false)];
    }

    /** Run one undo closure. */
    method UndoOne(u: Undo)
      modifies this`files, this`dirs, this`artifacts, this`stuck
      ensures Current() == UndoneBy(old(Current()), u, empties)
    {
      hide Removed, BackupReturned, Returned, Swept;
      match u
      case UndoMkdir(created) => SweepCreated(created);
      case UndoWrite(path, installed, backup, created) =>
        if installed {
          Rm(path);
        }
        if backup.Some? {
          ReturnBackup(backup.value, path);
        }
        SweepCreated(created);
      case UndoMove(from, to, moved, created) =>
        if moved {
          Return(to, from);
        }
        SweepCreated(created);
      case UndoRemove(path, backup) =>
        if backup.Some? {
          ReturnBackup(backup.value, path);
        }
    }

    /** Undo everything, last operation first. */
    method Rollback()
      modifies this`files, this`dirs, this`artifacts, this`stuck
      ensures Current() == Unwound(old(Current()), undoStack, empties)
    {
      hide UndoneBy;
      var j: nat := |undoStack|;
      assert undoStack[..j] == undoStack;
      while j > 0
        invariant j <= |undoStack|
        invariant Unwound(Current(), undoStack[..j], empties) == Unwound(old(Current()), undoStack, empties)
      {
        j := j - 1;
        assert undoStack[..j + 1][..j] == undoStack[..j] && undoStack[..j + 1][j] == undoStack[j];
        UndoOne(undoStack[j]);
      }
    }

    /** Where the rollback of a failed operation starts. */
    lemma RollbackStarts(completed: nat, base: Files)
      requires Interrupted(completed) && Stopped(completed) && !stuck && OnCourse(snaps[0], plan, staged, 0, base)
      ensures Halted(plan, staged, undoStack, snaps, trees, completed, base)
      ensures Along(plan, staged, undoStack, snaps, trees, |undoStack|, completed, Current(), {})
    {
      hide History, OpDone, Indexed, OrdinaryPlan, Rooted, Noted, WellFormed, OnCourse, UndoneTo;
      UndoneYet(completed);
      assert dirs == trees[|undoStack|] + {};
    }

    lemma UndoneYet(completed: nat)
      requires Interrupted(completed)
      ensures UndoneTo(plan, staged, undoStack, snaps, |undoStack|, completed, files, Paths(artifacts))
    {
      assert PathsOf(Now(), {}) == {};
      assert Taken(plan, staged, |undoStack|, completed) == {} || |undoStack| < completed;
      hide OpDone, Indexed, OrdinaryPlan;
    }

    /**
     `rm` every artifact the outcome owns; a backup of a committed plan goes with all
     it holds.
     */
    method CleanupArtifacts(success: bool)
      modifies this`files, this`dirs
      ensures forall q | q in files :: q in old(files) && files[q] == old(files)[q]
      ensures forall q | q in old(files) :: q !in files <==> RemovedBy(artifacts, |artifacts|, success, q)
    {
      for i := 0 to |artifacts|
        invariant forall q | q in files :: q in old(files) && files[q] == old(files)[q]
        invariant forall q | q in old(files) :: q !in files <==> RemovedBy(artifacts, i, success, q)
      {
        ghost var before := files;
        var artifact := artifacts[i];
        if (if success then artifact.onSuccess else artifact.onFailure) {
          if success && !artifact.stage {
            files := Without(files, artifact.path);
            dirs := set q | q in dirs && !(artifact.path <= q);
          } else {
            Rm(artifact.path);
          }
        }
        assert forall q | q in before :: q !in files <==> Removes(artifact, success, q);
        forall q ensures RemovedBy(artifacts, i + 1, success, q) <==> RemovedBy(artifacts, i, success, q) || Removes(artifact, success, q) {
        }
      }
    }

    /** `rm` every directory ever recorded, longest path first: a file that stands there by now goes too. */
    method CleanupCreatedDirectories()
      modifies this`files, this`dirs
      ensures files == old(files) - createdDirectories
    {
      var rest := createdDirectories;
      while rest != {}
        invariant rest <= createdDirectories && files == old(files) - (createdDirectories - rest)
        decreases rest
      {
        var p := Longest(rest);
        Rm(p);
        rest := rest - {p};
      }
    }

    method Longest(paths: set<Path>) returns (longest: Path)
      requires paths != {}
      ensures longest in paths && forall q :: q in paths ==> |q| <= |longest|
    {
      longest :| longest in paths;
      var rest := paths - {longest};
      while rest != {}
        invariant rest <= paths && longest in paths && forall q :: q in paths - rest ==> |q| <= |longest|
        decreases rest
      {
        var p :| p in rest;
        if |p| > |longest| {
          longest := p;
        }
        rest := rest - {p};
      }
    }

    // ----- staging and the whole plan -----

    /** The checks before anything is written. */
    method Preflight() returns (ok: bool)
      modifies this`budget
      ensures if ok then Admits(plan, files, dirs) else budget > 0 ==> !Admits(plan, files, dirs)
      ensures old(budget) <= budget + |plan|
    {
      for index := 0 to |plan|
        invariant forall k :: 0 <= k < index ==> Admitted(plan[k], files, dirs)
        invariant old(budget) <= budget + index
      {
        var op := plan[index];
        ok := Call();
        if !ok {
          return;
        }
        match op
        case Mkdir(_) =>
        case Write(path, _, overwrite) =>
          if (Exists(path) && !overwrite) || IsDirectory(path) {
            return false;
          }
        case Move(from, to) =>
          if !Exists(from) || Exists(to) {
            return false;
          }
        case Remove(path) =>
          if !Exists(path) {
            return false;
          }
      }
      return true;
    }

    /** Writes before `index` are staged, and nothing else is there. */
    ghost predicate StagedSoFar(base: Files, index: nat)
      requires index <= |plan|
      reads this`files, this`dirs, this`artifacts, this`staged
    {
      && WellFormed(files, dirs)
      && StagedTree(base, Now()) && Mapped(plan, staged, Now(), index) && AllStages(plan, staged, |artifacts|, index)
      && forall i :: 0 <= i < |artifacts| ==> artifacts[i].stage && artifacts[i].onSuccess && artifacts[i].onFailure
    }

    /** The directories staging has made so far, none recorded where a file was. */
    ghost predicate Housed(base: Files, before: set<Path>, index: nat)
      requires index <= |plan|
      reads this`dirs, this`createdDirectories
    {
      dirs == StagedDirs(plan[..index], before) && createdDirectories !! base.Keys
    }

    method StageWrites(ghost base: Files, ghost before: set<Path>) returns (ok: bool)
      requires OrdinaryPlan(plan) && StagedSoFar(base, 0) && Housed(base, before, 0)
      modifies this`budget, this`dirs, this`files, this`artifacts, this`staged, this`names, this`nameless, this`createdDirectories
      ensures StagedTree(base, Now()) && forall i :: 0 <= i < |artifacts| ==> artifacts[i].onFailure
      ensures if ok then StagedSoFar(base, |plan|) && Housed(base, before, |plan|) else plan != []
      ensures createdDirectories !! base.Keys
      ensures if ok then Stages(plan, base, before, |plan|) else budget > 0 && !nameless ==> !Stages(plan, base, before, |plan|)
      ensures old(budget) <= budget + 4 * |plan| && (old(Fresh()) ==> Fresh() && nameless == old(nameless))
    {
      hide StagedTree, Mapped, AllStages, WellFormed;
      for index := 0 to |plan|
        invariant StagedSoFar(base, index) && Housed(base, before, index) && Stages(plan, base, before, index)
        invariant old(budget) <= budget + 4 * index && (old(Fresh()) ==> Fresh() && nameless == old(nameless))
      {
        assert plan[..index + 1][..index] == plan[..index] && plan[..index + 1][index] == plan[index];
        if plan[index].Write? {
          ok := StageWrite(base, before, index);
          if !ok {
            assert budget > 0 && !nameless ==> !Stageable(plan, base, before, index);
            return;
          }
        } else {
          AllStagesNext(plan, staged, staged, |artifacts|, index, index + 1);
          NothingMapped(index);
        }
      }
      return true;
    }

    lemma NothingMapped(index: nat)
      requires index < |plan| && !plan[index].Write? && Mapped(plan, staged, Now(), index)
      ensures Mapped(plan, staged, Now(), index + 1)
    {
    }

    method StageWrite(ghost base: Files, ghost before: set<Path>, index: nat) returns (ok: bool)
      requires OrdinaryPlan(plan) && index < |plan| && plan[index].Write? && StagedSoFar(base, index) && Housed(base, before, index)
      modifies this`budget, this`dirs, this`files, this`artifacts, this`staged, this`names, this`nameless, this`createdDirectories
      ensures StagedTree(base, Now()) && forall i :: 0 <= i < |artifacts| ==> artifacts[i].onFailure
      ensures ok ==> StagedSoFar(base, index + 1) && dirs == old(dirs) + Needed(plan[index])
      ensures createdDirectories !! base.Keys
      ensures if ok then Stageable(plan, base, before, index) else budget > 0 && !nameless ==> !Stageable(plan, base, before, index)
      ensures old(budget) <= budget + 4 && (old(Fresh()) ==> Fresh() && nameless == old(nameless))
    {
      hide Mapped, AllStages, WellFormed, TransactionPath, Chain, StagedTree, OrdinaryPlan, Prefixes, Fresh, Untagged, StagedDirs;
      var op := plan[index];
      OpIsOrdinary(plan, index);
      OriginalsStay(base, Now());
      StagingSees(base, Now(), op);
      ok := Call();
      var existing := Exists(op.path);
      if !ok || IsDirectory(op.path) || (existing && !op.overwrite) {
        return false;
      }
      var created;
      ghost var asked;
      NeedsParent(op);
      hide Needed;
      ok, created, asked := EnsureDirectory(Parent(op.path));
      if !ok {
        return;
      }
      ok := PutStage(base, index, existing);
    }

    /** Write the stage beside its target, and copy the mode of a file that is there. */
    method PutStage(ghost base: Files, index: nat, existing: bool) returns (ok: bool)
      requires index < |plan| && plan[index].Write? && StagedSoFar(base, index) && OrdinaryOperation(plan[index])
      requires Prefixes(Parent(plan[index].path)) <= dirs
      modifies this`budget, this`files, this`artifacts, this`staged, this`names, this`nameless
      ensures StagedTree(base, Now()) && forall i :: 0 <= i < |artifacts| ==> artifacts[i].onFailure
      ensures if ok then StagedSoFar(base, index + 1) else budget == 0 || nameless
      ensures old(budget) <= budget + 2 && (old(Fresh()) ==> Fresh() && nameless == old(nameless))
    {
      hide Mapped, AllStages, WellFormed, TransactionPath, Chain, StagedTree, Prefixes, Fresh, Untagged, StagedDirs;
      var op := plan[index];
      var stage := UniqueSiblingPath(op.path);
      if stage.None? {
        return false;
      }
      ok := Call();
      if !ok {
        return;
      }
      StagePlace(op.path, stage.value);
      AddStage(base, index, stage.value);
      if existing {
        ok := Call();
        if !ok {
          return;
        }
      }
      staged := staged[index := |artifacts| - 1];
    }

    lemma StagePlace(path: Path, stage: Path)
      requires Prefixes(Parent(path)) <= dirs && Parent(stage) == Parent(path) && !Exists(stage)
      ensures stage != [] && Parent(stage) in dirs
    {
      InPrefixes(Parent(path), Parent(path));
    }

    /** `writeFile` with the exclusive flag. */
    method AddStage(ghost base: Files, index: nat, stage: Path)
      requires index < |plan| && plan[index].Write? && StagedSoFar(base, index)
      requires !Exists(stage) && TransactionPath(stage) && stage != [] && Parent(stage) in dirs
      modifies this`files, this`artifacts
      ensures StagedTree(base, Now()) && |artifacts| > 0 && WellFormed(files, dirs)
      ensures forall i :: 0 <= i < |artifacts| ==> artifacts[i].stage && artifacts[i].onSuccess && artifacts[i].onFailure
      ensures Mapped(plan, staged[index := |artifacts| - 1], Now(), index + 1)
      ensures AllStages(plan, staged[index := |artifacts| - 1], |artifacts|, index + 1)
      ensures old(Fresh()) && Untagged(stage, uuid, names) ==> Fresh()
    {
      hide StagedTree, TransactionPath, AllStages, Free, Ordinary, Mapped, WellFormed;
      Untouched(stage);
      OneMoreFile(files, dirs, stage, plan[index].content);
      ghost var before := artifacts;
      ghost var was := Now();
      StageAdded(base, was, stage, plan[index].content);
      MappedAdd(plan, staged, was, index, stage, plan[index].content);
      AllStagesAdd(plan, staged, |artifacts|, index);
      if Fresh() && Untagged(stage, uuid, names) {
        FreshFile(files, dirs, stage, plan[index].content, uuid, names);
      }
      files := files[stage := plan[index].content];
      artifacts := artifacts + [Artifact(stage, true, true, true)];
      assert Paths(artifacts) == Paths(before) + [stage];
      MappedNext(plan, staged, Now(), index);
    }

    lemma Untouched(stage: Path)
      requires !Exists(stage) && WellFormed(files, dirs)
      ensures Free(files, stage) && stage !in files
    {
      NothingBelow(files, dirs, stage);
    }

    /** Operation `index`. */
    method ApplyOne(index: nat) returns (ok: bool)
      requires Valid(index) && index < |plan| && Standing() && Noted(index)
      modifies this`budget, this`dirs, this`files, this`artifacts, this`undoStack, this`snaps, this`names, this`nameless, this`createdDirectories, this`recorded, this`trees
      ensures if ok then Valid(index + 1) && Standing() && Noted(index + 1) else Interrupted(index) && Stopped(index)
      ensures old(snaps) <= snaps && old(trees) <= trees
      ensures ok ==> Flagged(old(artifacts), artifacts, if plan[index].Write? then {StageOf(staged, index)} else {})
      ensures Decided(plan[index], old(files), old(dirs), ok)
      ensures old(budget) <= budget + 7 && (old(Fresh()) ==> Fresh() && nameless == old(nameless))
    {
      hide Standing, Noted, Stopped, Decided;
      match plan[index]
      case Mkdir(_) => ok := ApplyMkdir(index);
      case Write(_, _, _) => ok := ApplyWrite(index);
      case Move(_, _) => ok := ApplyMove(index);
      case Remove(_) => ok := ApplyRemove(index);
    }

    lemma Start(base: Files)
      requires OrdinaryPlan(plan) && StagedSoFar(base, |plan|) && snaps == [Now()] && undoStack == []
      requires trees == [dirs] && recorded == [] && prepared == createdDirectories
      ensures Valid(0) && StagedTree(base, snaps[0]) && OnCourse(snaps[0], plan, staged, 0, base)
      ensures Owned(plan, staged, artifacts, 0) && Standing() && Noted(0)
    {
      hide Staged, Mapped, OnCourse, Owned, Indexed, AllStages, OrdinaryPlan, WellFormed;
      MappedStaged(base, Now(), plan, staged);
      StartOnCourse(base, Now(), plan, staged);
      OwnedStart(plan, staged, artifacts);
      assert forall i :: 0 <= i < |artifacts| ==> artifacts[i].path == Paths(artifacts)[i];
    }

    lemma StagesFirst(index: nat)
      requires Valid(index)
      ensures |snaps[0].paths| <= |artifacts| && Indexed(plan, staged, |snaps[0].paths|)
    {
      SnapsGrow(plan, staged, undoStack, snaps, index, index);
    }

    /**
     A failed operation: undo, then delete what the clean-up owns, then every directory
     recorded as created. The rollback gets stuck exactly when `rm` refuses directories
     and one the plan made is in the way; if it does not, the original files are back
     but for those at the paths the two clean-ups delete.
     */
    method Fail(ghost base: Files, ghost completed: nat)
      requires Interrupted(completed) && Stopped(completed) && !stuck && StagedTree(base, snaps[0]) && OnCourse(snaps[0], plan, staged, 0, base)
      requires prepared !! base.Keys
      modifies this`files, this`dirs, this`artifacts, this`stuck
      ensures stuck <==> !empties && Obstructed(plan, base, trees[0], completed, |undoStack|)
      ensures !stuck ==> files == base - Lost(plan, completed) - Built(plan, base, trees[0], |recorded|)
    {
      hide Interrupted, Stopped, Unwound, Obstructed, Built, StagedTree, OnCourse, LeftOver, Along, RemovedBy, Lost;
      Unwinding(completed, base);
      StoppedWhere(completed);
      CreatedIs(completed, base);
      ghost var owned := LeftOver(plan, base, trees[0], 0, |undoStack|, empties);
      Rollback();
      ghost var r := Current();
      CleanupArtifacts(false);
      if !stuck {
        RestoredFiles(base, plan, staged, undoStack, snaps, trees, completed, r, owned, files);
      }
      CleanupCreatedDirectories();
      LessBoth(base, Lost(plan, completed), prepared, Built(plan, base, trees[0], |recorded|));
    }

    lemma LessBoth(base: Files, lost: set<Path>, unused: set<Path>, built: set<Path>)
      requires unused !! base.Keys
      ensures base - lost - (unused + built) == base - lost - built
    {
    }

    lemma Unwinding(completed: nat, base: Files)
      requires Interrupted(completed) && Stopped(completed) && !stuck && OnCourse(snaps[0], plan, staged, 0, base)
      ensures |trees| > 0 && |undoStack| <= |plan| && completed <= |plan|
      ensures var r := Unwound(Current(), undoStack, empties);
        && (r.stuck <==> !empties && Obstructed(plan, base, trees[0], completed, |undoStack|))
        && (!r.stuck ==> Along(plan, staged, undoStack, snaps, trees, 0, completed, r, LeftOver(plan, base, trees[0], 0, |undoStack|, empties)))
    {
      RollbackStarts(completed, base);
      StoppedWhere(completed);
      HaltedPlan(plan, staged, undoStack, snaps, trees, completed, base);
      hide Interrupted, Stopped, Halted, Unwound, Obstructed, OnCourse, LeftOver, Along;
      NothingLeft(plan, base, trees[0], |undoStack|, empties);
      assert undoStack[..|undoStack|] == undoStack;
      Unwinds(plan, staged, undoStack, snaps, trees, |undoStack|, completed, base, Current(), empties);
      ObstructedUpTo(plan, base, trees[0], completed, |undoStack|);
    }

    lemma CreatedIs(completed: nat, base: Files)
      requires Interrupted(completed) && Stopped(completed) && !stuck && OnCourse(snaps[0], plan, staged, 0, base)
      ensures |trees| > 0 && |recorded| <= |plan| && createdDirectories == prepared + Built(plan, base, trees[0], |recorded|)
    {
      RollbackStarts(completed, base);
      StoppedWhere(completed);
      HaltedPlan(plan, staged, undoStack, snaps, trees, completed, base);
      assert recorded[..|recorded|] == recorded;
      NotesAreBuilt(plan, staged, undoStack, snaps, trees, completed, base, recorded, |recorded|);
      hide Interrupted, Halted, OnCourse, Built, Rooted, WellFormed;
    }

    /** The plan is done: delete backups and anything staged but not taken. */
    method Commit(ghost base: Files)
      requires Valid(|plan|) && Owned(plan, staged, artifacts, |plan|) && OnCourse(snaps[0], plan, staged, 0, base)
      modifies this`files, this`dirs
      ensures files == PlanEffect(plan, base)
    {
      HistoryOnCourse(plan, staged, undoStack, snaps, |plan|, base);
      ghost var s := Now();
      forall i | 0 <= i < |artifacts| && artifacts[i].stage ensures i in Taken(plan, staged, 0, |plan|) {
        StageIsTaken(plan, staged, i, |plan|);
      }
      CleanupArtifacts(true);
      CommittedFiles(base, s, plan, staged, artifacts, files);
    }

    /**
     Apply the plan. A rejected plan changes no file; a committed plan leaves exactly
     its effect. As long as the budget holds and a free name is found each time, it is
     rejected exactly when the tree before it does not admit some operation, and commits
     exactly when it is `Performable`; otherwise it stops at the first operation that
     does not go on the tree it meets. A failed plan gets stuck in its rollback exactly
     when `rm` refuses directories and one that an operation made is in the way of a
     rename back; if not, it leaves the original files but for those at the paths in
     `Lost`, which the clean-up of artifacts still owned, and in `Built`, where a
     directory was recorded as created. Operations before `|undoStack|` made their
     directories, and operations before `|recorded|` recorded them.
     */
    method Apply() returns (r: Outcome)
      requires OrdinaryPlan(plan) && WellFormed(files, dirs)
      requires artifacts == [] && undoStack == [] && staged == map[] && createdDirectories == {} && !stuck && !nameless
      modifies this
      ensures r.Rejected? ==> files == old(files)
      ensures r.Committed? ==> files == PlanEffect(plan, old(files))
      ensures r.RolledBack? ==> StopsAt(plan, r.completed, |undoStack|, |recorded|)
      ensures r.RolledBack? ==>
        (r.stuck <==> !empties && Obstructed(plan, old(files), StagedDirs(plan, old(dirs)), r.completed, |undoStack|))
      ensures r.RolledBack? && !r.stuck ==>
        files == old(files) - Lost(plan, r.completed) - Built(plan, old(files), StagedDirs(plan, old(dirs)), |recorded|)
      ensures r.Committed? ==> Performable(plan, old(files), old(dirs))
      ensures budget > 0 ==> (r.Rejected? <==> !Admits(plan, old(files), old(dirs)))
      ensures budget > 0 && !nameless ==> (r.Committed? <==> Performable(plan, old(files), old(dirs)))
      ensures budget > 0 && !nameless && r.RolledBack? && Stages(plan, old(files), old(dirs), |plan|) ==>
        && Works(plan, old(files), StagedDirs(plan, old(dirs)), r.completed)
        && !GoesAt(plan, old(files), StagedDirs(plan, old(dirs)), r.completed)
      ensures old(budget) <= budget + 12 * |plan| && (old(Fresh()) ==> !nameless)
    {
      hide *;
      PerformableParts(plan, files, dirs);
      var ok := Preflight();
      if !ok {
        return Rejected;
      }
      ghost var base, before := files, dirs;
      r := Perform();
      if r.RolledBack? {
        StopsForGood(plan, base, StagedDirs(plan, before), r.completed, |undoStack|, |recorded|);
      }
    }

    /** The plan once its checks have passed: staged, and carried out or rolled back. */
    method Perform() returns (r: Outcome)
      requires OrdinaryPlan(plan) && WellFormed(files, dirs)
      requires artifacts == [] && undoStack == [] && staged == map[] && createdDirectories == {} && !stuck && !nameless
      modifies this
      ensures !r.Rejected?
      ensures r.Committed? ==> files == PlanEffect(plan, old(files))
      ensures r.RolledBack? ==> StopsAt(plan, r.completed, |undoStack|, |recorded|)
      ensures r.RolledBack? ==>
        (r.stuck <==> !empties && Obstructed(plan, old(files), StagedDirs(plan, old(dirs)), r.completed, |undoStack|))
      ensures r.RolledBack? && !r.stuck ==>
        files == old(files) - Lost(plan, r.completed) - Built(plan, old(files), StagedDirs(plan, old(dirs)), |recorded|)
      ensures r.Committed? ==>
        Stages(plan, old(files), old(dirs), |plan|) && Works(plan, old(files), StagedDirs(plan, old(dirs)), |plan|)
      ensures budget > 0 && !nameless && r.RolledBack? ==>
        if Stages(plan, old(files), old(dirs), |plan|) then
          && Works(plan, old(files), StagedDirs(plan, old(dirs)), r.completed)
          && !GoesAt(plan, old(files), StagedDirs(plan, old(dirs)), r.completed)
        else r.completed == 0
      ensures old(budget) <= budget + 11 * |plan| && (old(Fresh()) ==> !nameless)
    {
      hide *;
      ghost var base := files;
      ghost var before := dirs;
      NothingStaged(base, before);
      var ok := StageWrites(base, before);
      snaps, trees, recorded, prepared := [Now()], [dirs], [], createdDirectories;
      if !ok {
        Abandon(base);
        NothingStarted(plan, base, StagedDirs(plan, before));
        StopsFirst(plan);
        return RolledBack(0, false);
      }
      WholePlanStaged(before, base);
      Start(base);
      r := Execute(base);
    }

    /** The staged plan, carried out or rolled back. */
    method Execute(ghost base: Files) returns (r: Outcome)
      requires Valid(0) && StagedTree(base, snaps[0]) && OnCourse(snaps[0], plan, staged, 0, base) && Owned(plan, staged, artifacts, 0)
      requires Standing() && Noted(0) && |trees| > 0 && !stuck && prepared !! base.Keys
      modifies this
      ensures prepared == old(prepared) && !r.Rejected?
      ensures r.Committed? ==> files == PlanEffect(plan, base)
      ensures r.RolledBack? ==> StopsAt(plan, r.completed, |undoStack|, |recorded|)
      ensures r.RolledBack? ==> (r.stuck <==> !empties && Obstructed(plan, base, old(trees)[0], r.completed, |undoStack|))
      ensures r.RolledBack? && !r.stuck ==> files == base - Lost(plan, r.completed) - Built(plan, base, old(trees)[0], |recorded|)
      ensures if r.Committed? then Works(plan, base, old(trees)[0], |plan|)
              else Works(plan, base, old(trees)[0], r.completed) && (budget > 0 && !nameless ==> !GoesAt(plan, base, old(trees)[0], r.completed))
      ensures old(budget) <= budget + 7 * |plan| && (old(Fresh()) ==> nameless == old(nameless))
    {
      hide OnCourse, Owned, Lost, Obstructed, Built, Valid, PlanEffect, StagedTree, Standing, Noted, Interrupted, Stopped;
      var ok, completed := ApplyAll(base);
      if !ok {
        StoppedWhere(completed);
        Fail(base, completed);
        return RolledBack(completed, stuck);
      }
      Commit(base);
      return Committed;
    }

    lemma NothingStaged(base: Files, before: set<Path>)
      requires WellFormed(files, dirs) && base == files && before == dirs && artifacts == [] && staged == map[] && createdDirectories == {}
      ensures StagedSoFar(base, 0) && Housed(base, before, 0)
    {
      hide WellFormed;
    }

    lemma WholePlanStaged(before: set<Path>, base: Files)
      requires Housed(base, before, |plan|)
      ensures dirs == StagedDirs(plan, before)
    {
      assert plan[..|plan|] == plan;
    }

    /** A failure while staging: nothing is to be undone, and both clean-ups leave the original files. */
    method Abandon(ghost base: Files)
      requires StagedTree(base, Now()) && (forall i :: 0 <= i < |artifacts| ==> artifacts[i].onFailure)
      requires createdDirectories !! base.Keys
      modifies this`files, this`dirs
      ensures files == base
    {
      ghost var start := Now();
      CleanupArtifacts(false);
      hide RemovedBy, StagedTree;
      StagingCleaned(base, start, artifacts, files);
      CleanupCreatedDirectories();
      assert base - createdDirectories == base;
    }

    lemma StoppedWhere(completed: nat)
      requires Stopped(completed)
      ensures StopsAt(plan, completed, |undoStack|, |recorded|)
    {
      hide Standing;
    }

    /** The operations in order, up to the first that fails. */
    method ApplyAll(ghost base: Files) returns (ok: bool, completed: nat)
      requires Valid(0) && StagedTree(base, snaps[0]) && OnCourse(snaps[0], plan, staged, 0, base)
      requires Owned(plan, staged, artifacts, 0) && Standing() && Noted(0)
      modifies this`budget, this`dirs, this`files, this`artifacts, this`undoStack, this`snaps, this`names, this`nameless, this`createdDirectories, this`recorded, this`trees
      ensures ok ==> Valid(|plan|) && Owned(plan, staged, artifacts, |plan|)
      ensures !ok ==> completed < |plan| && Interrupted(completed) && Stopped(completed)
      ensures completed <= |plan| && Works(plan, base, old(trees)[0], completed) && (ok ==> completed == |plan|)
      ensures !ok && budget > 0 && !nameless ==> !GoesAt(plan, base, old(trees)[0], completed)
      ensures |snaps| > 0 && |trees| > 0 && snaps[0] == old(snaps)[0] && trees[0] == old(trees)[0]
      ensures old(budget) <= budget + 7 * |plan| && (old(Fresh()) ==> Fresh() && nameless == old(nameless))
    {
      TreesStart();
      hide *;
      NothingWorked(plan, base, trees[0]);
      completed := 0;
      while completed < |plan|
        invariant completed <= |plan| && Valid(completed) && Standing() && Noted(completed)
        invariant |snaps| > 0 && |trees| > 0 && snaps[0] == old(snaps)[0] && trees[0] == old(trees)[0]
        invariant Owned(plan, staged, artifacts, completed) && Works(plan, base, trees[0], completed)
        invariant old(budget) <= budget + 7 * completed && (old(Fresh()) ==> Fresh() && nameless == old(nameless))
      {
        ok := ApplyNext(base, completed);
        if !ok {
          return;
        }
        completed := completed + 1;
      }
      ok := true;
    }

    method ApplyNext(ghost base: Files, next: nat) returns (ok: bool)
      requires next < |plan| && Valid(next) && Standing() && Noted(next) && |snaps| > 0 && |trees| > 0
      requires OnCourse(snaps[0], plan, staged, 0, base) && Owned(plan, staged, artifacts, next) && Works(plan, base, trees[0], next)
      modifies this`budget, this`dirs, this`files, this`artifacts, this`undoStack, this`snaps, this`names, this`nameless, this`createdDirectories, this`recorded, this`trees
      ensures |snaps| > 0 && |trees| > 0 && snaps[0] == old(snaps)[0] && trees[0] == old(trees)[0]
      ensures if ok then Valid(next + 1) && Standing() && Noted(next + 1) else Interrupted(next) && Stopped(next)
      ensures if ok then Owned(plan, staged, artifacts, next + 1) && Works(plan, base, trees[0], next + 1)
              else budget > 0 && !nameless ==> !GoesAt(plan, base, trees[0], next)
      ensures old(budget) <= budget + 7 && (old(Fresh()) ==> Fresh() && nameless == old(nameless))
    {
      hide *;
      ghost var before, was, beforeDirs := artifacts, files, dirs;
      StagesFirst(next);
      SeenAlike(next, base);
      ok := ApplyOne(next);
      DecidedAt(plan[next], was, beforeDirs, ok);
      if ok {
        OwnedNext(plan, staged, before, artifacts, next, |snaps[0].paths|);
        WorksOn(plan, base, trees[0], next);
      }
    }

    lemma DecidedAt(op: Operation, before: Files, beforeDirs: set<Path>, ok: bool)
      requires Decided(op, before, beforeDirs, ok)
      ensures if ok then Goes(op, before, beforeDirs) else budget > 0 && !nameless ==> !Goes(op, before, beforeDirs)
    {
      hide Goes;
    }

    /** The tree operation `next` meets is the plan's so far, as far as it can see. */
    lemma SeenAlike(next: nat, base: Files)
      requires Valid(next) && Standing() && next < |plan| && OnCourse(snaps[0], plan, staged, 0, base)
      ensures |trees| > 0 && (Goes(plan[next], files, dirs) <==> GoesAt(plan, base, trees[0], next))
    {
      hide WellFormed, OnCourse, Staged, AllAnchored, OpDone, DirDone;
      StandingHere(next);
      AlikeAt(plan, staged, undoStack, snaps, trees, next, base);
      OpIsOrdinary(plan, next);
      hide History, Rooted, Alike, OrdinaryPlan, Indexed;
      GoesAlike(plan[next], Now(), dirs, PlanEffect(plan[..next], base), PlanDirs(plan[..next], trees[0]));
    }

    lemma StandingHere(next: nat)
      requires Valid(next) && Standing()
      ensures |trees| == next + 1 && trees[next] == dirs && snaps[next] == Now() && Rooted(plan, undoStack, snaps, trees, next)
      ensures OrdinaryPlan(plan) && Indexed(plan, staged, |snaps[0].paths|) && History(plan, staged, undoStack, snaps, next)
    {
      hide Rooted, WellFormed, History, Staged, AllAnchored, OrdinaryPlan, Indexed;
    }

    lemma TreesStart()
      requires Standing()
      ensures |trees| > 0 && |snaps| > 0
    {
    }
  }
}

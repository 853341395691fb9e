/**
 Rolling a file plan back, on files and directories (packages/cli/src/file-plan.ts:
 the undo closures, `rollback`, `cleanupCreatedDirectories`). Whether `rm` removes an
 empty directory or refuses every directory is a parameter. A rename is that of POSIX:
 a file replaces a file, a directory an empty directory, and nothing else is replaced.
 */
module FilePlanRollback {
  import opened Wrappers
  import opened FileTree
  import opened FilePlanHistory
  import opened FilePlanEffects
  import opened FilePlanDirectories

  /** `stuck`: some rename back has failed. */
  datatype World = World(files: Files, dirs: set<Path>, artifacts: seq<Artifact>, stuck: bool)

  predicate IsEmpty(w: World, p: Path) {
    (forall q | q in w.files :: !Above(p, q)) && (forall q | q in w.dirs :: !Above(p, q))
  }

  /** `rm` without `recursive`: a file goes, a directory only where that is allowed and it is empty. */
  function Removed(w: World, p: Path, empties: bool): World {
    if p in w.files then w.(files := w.files - {p})
    else if p in w.dirs && empties && IsEmpty(w, p) then w.(dirs := w.dirs - {p})
    else w
  }

  function Swept(w: World, paths: seq<Path>, empties: bool): World
    decreases |paths|
  {
    if paths == [] then w else Swept(Removed(w, paths[0], empties), paths[1..], empties)
  }

  predicate CanReturn(w: World, from: Path, to: Path) {
    && (from in w.files || from in w.dirs) && !(from <= to) && to != [] && Parent(to) in w.dirs
    && (if from in w.files then to !in w.dirs else to !in w.files && (to in w.dirs ==> IsEmpty(w, to)))
  }

  function Rewritten(artifacts: seq<Artifact>, from: Path, to: Path): seq<Artifact> {
    seq(|artifacts|, i requires 0 <= i < |artifacts| => artifacts[i].(path := Renamed(artifacts[i].path, from, to)))
  }

  /** Rename back, and let the artifacts follow. */
  function Returned(w: World, from: Path, to: Path): World {
    if CanReturn(w, from, to)
    then World(Rename(Without(w.files, to), from, to), Images(w.dirs - {to}, from, to), Rewritten(w.artifacts, from, to), w.stuck)
    else w.(stuck := true)
  }

  /** Bring a backup back; the clean-up no longer owns it. */
  function BackupReturned(w: World, b: nat, path: Path): World {
    if b < |w.artifacts| && CanReturn(w, w.artifacts[b].path, path) then
      var r := Returned(w, w.artifacts[b].path, path);
      r.(artifacts := r.artifacts[b := r.artifacts[b].(onSuccess := false, onFailure := false)])
    else w.(stuck := true)
  }

  /** One undo closure. */
  function UndoneBy(w: World, u: Undo, empties: bool): World {
    match u
    case UndoMkdir(created) => Swept(w, created, empties)
    case UndoWrite(path, installed, backup, created) =>
      var cleared := if installed then Removed(w, path, empties) else w;
      Swept(if backup.Some? then BackupReturned(cleared, backup.value, path) else cleared, created, empties)
    case UndoMove(from, to, moved, created) => Swept(if moved then Returned(w, to, from) else w, created, empties)
    case UndoRemove(path, backup) => if backup.Some? then BackupReturned(w, backup.value, path) else w
  }

  /** All of them, last first. */
  function Unwound(w: World, undo: seq<Undo>, empties: bool): World
    decreases |undo|
  {
    if undo == [] then w else Unwound(UndoneBy(w, undo[|undo| - 1], empties), undo[..|undo| - 1], empties)
  }

  // ----- one rename back -----

  lemma ImageBack(dirs: set<Path>, from: Path, to: Path)
    requires forall y :: y in dirs ==> !(to <= y)
    ensures Images(Images(dirs, from, to), to, from) == dirs
  {
    forall y | y in dirs ensures Renamed(Renamed(y, from, to), to, from) == y && y in Images(Images(dirs, from, to), to, from) {
      RenamedBack(y, from, to);
      assert Renamed(y, from, to) in Images(dirs, from, to);
    }
  }

  lemma ImageJoin(a: set<Path>, b: set<Path>, from: Path, to: Path)
    ensures Images(a + b, from, to) == Images(a, from, to) + Images(b, from, to)
  {
  }

  /** After a rename nothing is left where it came from. */
  lemma SourceIsFree(dirs: set<Path>, from: Path, to: Path)
    requires (forall y :: y in dirs ==> !(to <= y)) && !(from <= to) && !(to <= from)
    ensures forall q :: q in Images(dirs, from, to) ==> !(from <= q)
  {
    forall q | q in Images(dirs, from, to) ensures !(from <= q) {
      var y :| y in dirs && q == Renamed(y, from, to);
      if from <= y && from <= q {
        Overlap(from, to, y[|from|..]);
        assert false;
      }
    }
  }

  /** `w` is what renaming `from` to `to` made of a file system, but for files gone since and directories left over. */
  ghost predicate MovedFrom(w: World, files: Files, dirs: set<Path>, gone: set<Path>, from: Path, to: Path, left: set<Path>) {
    && WellFormed(files, dirs) && (from in files || from in dirs) && to !in files && to !in dirs && !(from <= to)
    && to != [] && Parent(to) in dirs && Free(files, to)
    && w.files == Rename(files, from, to) - gone && to !in gone && w.dirs == Images(dirs, from, to) + left
    && (forall x :: x in left ==> x !in Rename(files, from, to) && x !in Images(dirs, from, to))
  }

  lemma RenamedEnds(w: World, files: Files, dirs: set<Path>, gone: set<Path>, from: Path, to: Path, left: set<Path>)
    requires MovedFrom(w, files, dirs, gone, from, to, left)
    ensures (to in w.files <==> from in files) && (to in w.dirs <==> from in dirs) && (from in files <==> from !in dirs)
    ensures !(to <= from) && from != [] && Parent(from) in w.dirs && Parent(from) != from
    ensures (forall q :: q in w.files ==> !(from <= q)) && (forall q :: q in Images(dirs, from, to) ==> !(from <= q))
  {
    hide Rename;
    NothingBelow(files, dirs, to);
    RenameKeys(files, from, to);
    RenameBack(files, from, to);
    SourceIsFree(dirs, from, to);
    assert from <= from && Renamed(from, from, to) == to;
    if to in Images(dirs, from, to) {
      var y :| y in dirs && to == Renamed(y, from, to);
      RenamedBack(y, from, to);
      assert Renamed(to, to, from) == from;
    }
    if from in dirs {
      assert to in Images(dirs, from, to);
    }
    if from in files {
      assert to in Rename(files, from, to);
    }
    assert Above(Parent(from), from);
    assert !(from <= Parent(from));
    assert Renamed(Parent(from), from, to) == Parent(from);
  }

  /** Such a rename can be undone exactly when nothing left over is in the way. */
  lemma ReturnsUnlessBlocked(w: World, files: Files, dirs: set<Path>, gone: set<Path>, from: Path, to: Path, left: set<Path>)
    requires MovedFrom(w, files, dirs, gone, from, to, left)
    ensures CanReturn(w, to, from) <==> !Blocked(from, from in files, left)
  {
    RenamedEnds(w, files, dirs, gone, from, to, left);
    hide MovedFrom, WellFormed;
    assert w.dirs == Images(dirs, from, to) + left by {
      assert MovedFrom(w, files, dirs, gone, from, to, left);
    }
    assert from <= from;
    forall q ensures Above(from, q) ==> from <= q {
      PrefixIsAbove(from, q);
    }
  }

  lemma ReturnedWorld(w: World, files: Files, dirs: set<Path>, gone: set<Path>, from: Path, to: Path, left: set<Path>)
    requires MovedFrom(w, files, dirs, gone, from, to, left) && !Blocked(from, from in files, left) && WellFormed(w.files, w.dirs)
    ensures var r := Returned(w, to, from);
      && !(to <= from) && Free(w.files, from) && r.files == Rename(w.files, to, from)
      && r.dirs == dirs + Images(left - {from}, to, from) && WellFormed(r.files, r.dirs)
      && r.artifacts == Rewritten(w.artifacts, to, from) && r.stuck == w.stuck
  {
    hide MovedFrom, WellFormed, Rename, Images, CanReturn, Free, Blocked, Renamed;
    ReturnsUnlessBlocked(w, files, dirs, gone, from, to, left);
    RenamedEnds(w, files, dirs, gone, from, to, left);
    NothingUnder(w, files, dirs, gone, from, to, left);
    ImageBack(dirs, from, to);
    MovedDirs(w, files, dirs, gone, from, to, left);
    ImageJoin(Images(dirs, from, to), left - {from}, to, from);
    NothingWithout(w.files, from);
    EmptiedForm(w, from, to);
  }

  lemma NothingWithout(files: Files, p: Path)
    requires forall q :: q in files ==> !(p <= q)
    ensures Free(files, p) && Without(files, p) == files
  {
  }

  lemma NothingUnder(w: World, files: Files, dirs: set<Path>, gone: set<Path>, from: Path, to: Path, left: set<Path>)
    requires MovedFrom(w, files, dirs, gone, from, to, left)
    ensures Free(files, to) && forall y :: y in dirs ==> !(to <= y)
  {
    NothingBelow(files, dirs, to);
  }

  lemma MovedDirs(w: World, files: Files, dirs: set<Path>, gone: set<Path>, from: Path, to: Path, left: set<Path>)
    requires MovedFrom(w, files, dirs, gone, from, to, left) && from !in Images(dirs, from, to)
    ensures w.dirs - {from} == Images(dirs, from, to) + (left - {from})
  {
    hide Images, WellFormed, Rename;
  }

  lemma EmptiedForm(w: World, from: Path, to: Path)
    requires WellFormed(w.files, w.dirs) && CanReturn(w, to, from) && Free(w.files, from)
    ensures WellFormed(Rename(w.files, to, from), Images(w.dirs - {from}, to, from))
  {
    assert from <= from;
    if from in w.dirs {
      NothingBelowDir(w, from);
      FewerDirectories(w.files, w.dirs, from);
    } else {
      assert w.dirs - {from} == w.dirs;
    }
    assert Parent(from) != from;
    hide WellFormed;
    RenameKeepsForm(w.files, w.dirs - {from}, to, from);
  }

  lemma NothingBelowDir(w: World, p: Path)
    requires IsEmpty(w, p)
    ensures forall q :: q in w.files || q in w.dirs ==> !Above(p, q)
  {
  }

  /** What is left over after a rename back is still out of place. */
  lemma LeftStaysOut(w: World, files: Files, dirs: set<Path>, gone: set<Path>, from: Path, to: Path, left: set<Path>)
    requires MovedFrom(w, files, dirs, gone, from, to, left) && !Blocked(from, from in files, left) && WellFormed(w.files, w.dirs)
    ensures forall x :: x in Images(left - {from}, to, from) ==> x !in files && x !in dirs
  {
    hide MovedFrom, WellFormed, Rename, Renamed, Blocked;
    NothingUnder(w, files, dirs, gone, from, to, left);
    forall x | x in left && x != from ensures Renamed(x, to, from) !in files && Renamed(x, to, from) !in dirs {
      LeftIsOut(w, files, dirs, gone, from, to, left, x);
      LeftIsNew(files, dirs, from, to, x);
    }
  }

  lemma LeftIsOut(w: World, files: Files, dirs: set<Path>, gone: set<Path>, from: Path, to: Path, left: set<Path>, x: Path)
    requires MovedFrom(w, files, dirs, gone, from, to, left) && !Blocked(from, from in files, left) && WellFormed(w.files, w.dirs)
    requires x in left && x != from
    ensures x !in Rename(files, from, to) && x !in Images(dirs, from, to) && !(from <= x)
  {
    RenamedEnds(w, files, dirs, gone, from, to, left);
    hide Rename, Images;
    PrefixIsAbove(from, x);
    assert x in w.dirs && from <= from;
    assert Above(from, x) ==> from in w.dirs;
  }

  lemma LeftIsNew(files: Files, dirs: set<Path>, from: Path, to: Path, x: Path)
    requires Free(files, to) && (forall y :: y in dirs ==> !(to <= y))
    requires x !in Rename(files, from, to) && x !in Images(dirs, from, to)
    ensures to <= x || !(from <= x) ==> Renamed(x, to, from) !in files && Renamed(x, to, from) !in dirs
  {
    RenameKeys(files, from, to);
    var y := Renamed(x, to, from);
    if to <= x {
      assert y[|from|..] == x[|to|..];
      assert Renamed(y, from, to) == x;
    } else if !(from <= x) {
      assert Renamed(y, from, to) == x;
    }
  }

  // ----- sweeping the directories an operation made -----

  /** Where `rm` refuses directories nothing happens. */
  lemma {:induction false} SweepRefused(w: World, created: seq<Path>)
    requires forall p :: p in created ==> p !in w.files
    ensures Swept(w, created, false) == w
    decreases |created|
  {
    if created != [] {
      assert created[0] in created;
      SweepRefused(w, created[1..]);
    }
  }

  /** Where it removes empty ones, a chain of directories that hold nothing else goes, deepest first. */
  lemma {:induction false} SweepEmpties(w: World, created: seq<Path>, dirs: set<Path>)
    requires Chain(created, set p | p in created) && w.dirs == dirs + set p | p in created
    requires forall p :: p in created ==> p !in w.files && p !in dirs
    requires forall p, q :: p in created && (q in w.files || q in dirs) ==> !Above(p, q)
    ensures Swept(w, created, true) == w.(dirs := dirs)
    decreases |created|
  {
    if created != [] {
      var p, rest := created[0], created[1..];
      assert p in created;
      forall q | q in w.dirs ensures !Above(p, q) {
        if q !in dirs {
          var i :| 0 <= i < |created| && created[i] == q;
        }
      }
      assert Removed(w, p, true) == w.(dirs := w.dirs - {p});
      assert w.dirs - {p} == dirs + set q | q in rest by {
        forall q | q in created && q != p ensures q in rest {
          var i :| 0 <= i < |created| && created[i] == q;
          assert rest[i - 1] == q;
        }
        forall q | q in rest ensures q in created && q != p {
          var i :| 0 <= i < |rest| && rest[i] == q;
          assert created[i + 1] == q;
        }
      }
      assert forall i :: 0 <= i < |rest| ==> rest[i] == created[i + 1];
      SweepEmpties(w.(dirs := w.dirs - {p}), rest, dirs);
    } else {
      assert w.dirs == dirs;
    }
  }

  /** What a sweep leaves of the directories an operation made. */
  lemma SweepMade(w: World, created: seq<Path>, added: set<Path>, files: Files, dirs: set<Path>, left: set<Path>, empties: bool)
    requires WellFormed(files, dirs) && WellFormed(w.files, w.dirs) && Chain(created, added)
    requires w.dirs == dirs + added + left && (empties ==> left == {})
    requires w.files.Keys <= files.Keys && added !! dirs && added !! files.Keys
    ensures Swept(w, created, empties) == w.(dirs := dirs + (if empties then {} else left + added))
  {
    assert added == set p | p in created;
    if empties {
      forall p, q | p in created && (q in w.files || q in dirs) ensures !Above(p, q) {
        assert p in added;
        NothingBelow(files, dirs, p);
        PrefixIsAbove(p, q);
      }
      SweepEmpties(w, created, dirs);
      assert dirs + {} == dirs;
    } else {
      SweepRefused(w, created);
      assert w.dirs == dirs + (left + added);
    }
  }

  // ----- one undo closure -----

  /** Undo entries `j` and later have run without getting stuck; only `left` is out of place. */
  ghost predicate Along(plan: seq<Operation>, staged: map<nat, nat>, undo: seq<Undo>, snaps: seq<Snap>, trees: seq<set<Path>>,
                        j: nat, completed: nat, w: World, left: set<Path>) {
    && !w.stuck && j < |trees| && UndoneTo(plan, staged, undo, snaps, j, completed, w.files, Paths(w.artifacts))
    && (forall i | 0 <= i < |w.artifacts| :: w.artifacts[i].onFailure <==> i < |snaps[j].paths|)
    && WellFormed(w.files, w.dirs) && w.dirs == trees[j] + left
    && OutOfPlace(left, snaps[j].files, trees[j])
  }

  ghost predicate OutOfPlace(left: set<Path>, files: Files, dirs: set<Path>) {
    forall x :: x in left ==> Ordinary(x) && x !in files && x !in dirs
  }

  /** The stages of operations still to be undone are under transaction names. */
  ghost predicate StagesMarked(plan: seq<Operation>, staged: map<nat, nat>, s: Snap, j: nat, completed: nat) {
    forall i :: i in Taken(plan, staged, j, completed) ==> i < |s.paths| && !Ordinary(s.paths[i])
  }

  /** Everything one undo step relies on. */
  ghost predicate Ready(plan: seq<Operation>, staged: map<nat, nat>, undo: seq<Undo>, snaps: seq<Snap>, trees: seq<set<Path>>,
                        j: nat, completed: nat, w: World, left: set<Path>, empties: bool) {
    && Along(plan, staged, undo, snaps, trees, j + 1, completed, w, left)
    && NextUndo(plan, staged, undo, snaps, j, completed, w.files, Paths(w.artifacts))
    && DirDone(plan[j], undo[j], snaps[j], trees[j], snaps[j + 1], trees[j + 1])
    && WellFormed(snaps[j].files, trees[j]) && StagesMarked(plan, staged, snaps[j], j, completed)
    && (empties ==> left == {}) && (j == completed ==> left == {})
  }

  /** What is left over once it has run. */
  function Remaining(op: Operation, left: set<Path>, dirs: set<Path>, empties: bool): set<Path> {
    if empties then {} else AfterUndo(op, left, Needed(op) - dirs)
  }

  lemma RewrittenPaths(artifacts: seq<Artifact>, from: Path, to: Path)
    ensures Paths(Rewritten(artifacts, from, to)) == PathsRenamed(Paths(artifacts), from, to)
  {
  }

  lemma UndoneFiles(plan: seq<Operation>, staged: map<nat, nat>, undo: seq<Undo>, snaps: seq<Snap>,
                    j: nat, completed: nat, files: Files, paths: seq<Path>)
    requires UndoneTo(plan, staged, undo, snaps, j, completed, files, paths)
    ensures files.Keys <= snaps[j].files.Keys && OrdinaryPlan(plan)
    ensures forall i :: i in Taken(plan, staged, j, completed) ==> i < |snaps[j].paths|
    ensures files == snaps[j].files - PathsOf(snaps[j], Taken(plan, staged, j, completed))
  {
  }

  /** Sweeping up after an undo closure. */
  lemma SweptAlong(plan: seq<Operation>, staged: map<nat, nat>, undo: seq<Undo>, snaps: seq<Snap>, trees: seq<set<Path>>,
                   j: nat, completed: nat, w: World, created: seq<Path>, left: set<Path>, empties: bool)
    requires j < |trees| && j < |plan| && !w.stuck && UndoneTo(plan, staged, undo, snaps, j, completed, w.files, Paths(w.artifacts))
    requires forall i | 0 <= i < |w.artifacts| :: w.artifacts[i].onFailure <==> i < |snaps[j].paths|
    requires WellFormed(w.files, w.dirs) && WellFormed(snaps[j].files, trees[j]) && Chain(created, Needed(plan[j]) - trees[j])
    requires Needed(plan[j]) !! snaps[j].files.Keys && w.dirs == trees[j] + Needed(plan[j]) + left && (empties ==> left == {})
    requires OutOfPlace(left, snaps[j].files, trees[j])
    ensures Along(plan, staged, undo, snaps, trees, j, completed, Swept(w, created, empties),
                  if empties then {} else left + (Needed(plan[j]) - trees[j]))
  {
    UndoneFiles(plan, staged, undo, snaps, j, completed, w.files, Paths(w.artifacts));
    assert OrdinaryOperation(plan[j]);
    NeededIsOrdinary(plan[j]);
    hide UndoneTo, Chain, WellFormed, Needed, OrdinaryPlan, Ordinary;
    var added := Needed(plan[j]) - trees[j];
    assert w.dirs == trees[j] + added + left;
    SweepMade(w, created, added, snaps[j].files, trees[j], left, empties);
    FewerForm(snaps[j].files, trees[j], w.files);
    if empties {
      assert trees[j] + {} == trees[j];
    } else {
      assert w.dirs == trees[j] + (left + added);
    }
  }

  lemma FewerForm(files: Files, dirs: set<Path>, fewer: Files)
    requires WellFormed(files, dirs) && fewer.Keys <= files.Keys
    ensures WellFormed(fewer, dirs)
  {
  }

  lemma MkdirStep(plan: seq<Operation>, staged: map<nat, nat>, undo: seq<Undo>, snaps: seq<Snap>, trees: seq<set<Path>>,
                  j: nat, completed: nat, w: World, left: set<Path>, empties: bool)
    requires Ready(plan, staged, undo, snaps, trees, j, completed, w, left, empties) && plan[j].Mkdir?
    ensures Along(plan, staged, undo, snaps, trees, j, completed, UndoneBy(w, undo[j], empties), Remaining(plan[j], left, trees[j], empties))
  {
    MkdirUndone(plan, staged, undo, snaps, j, completed, w.files, Paths(w.artifacts));
    hide UndoneTo, NextUndo, StagesMarked, Chain, WellFormed, Needed, Swept;
    SweptAlong(plan, staged, undo, snaps, trees, j, completed, w, undo[j].created, left, empties);
  }

  /** A move is undone by a rename of the tree it made, unless something is in the way. */
  lemma MoveIsMovedFrom(plan: seq<Operation>, staged: map<nat, nat>, undo: seq<Undo>, snaps: seq<Snap>, trees: seq<set<Path>>,
                        j: nat, completed: nat, w: World, left: set<Path>, empties: bool)
    requires Ready(plan, staged, undo, snaps, trees, j, completed, w, left, empties) && plan[j].Move? && undo[j].moved
    ensures MovedFrom(w, snaps[j].files, trees[j] + Needed(plan[j]), PathsOf(snaps[j + 1], Taken(plan, staged, j + 1, completed)),
                      plan[j].from, plan[j].to, left)
  {
    var from, to := plan[j].from, plan[j].to;
    UndoneFiles(plan, staged, undo, snaps, j + 1, completed, w.files, Paths(w.artifacts));
    UndoFacts(plan, staged, undo, snaps, j, completed, w.files, Paths(w.artifacts));
    assert OrdinaryOperation(plan[j]);
    hide UndoneTo, Chain, OrdinaryPlan;
    MoreDirectories(snaps[j].files, trees[j], Parent(to));
    TargetIsNew(snaps[j].files, trees[j], from, to);
    NotAmongStages(plan, staged, snaps[j], j, completed, from, to);
    hide WellFormed, Taken, StagesMarked, Ordinary, Rename, Images, Free;
    assert snaps[j + 1] == Moved(snaps[j], from, to);
  }

  lemma TargetIsNew(files: Files, dirs: set<Path>, from: Path, to: Path)
    requires WellFormed(files, dirs) && (from in files || from in dirs) && Free(files, to) && to !in dirs && !(from <= to)
    ensures to !in files && to != [] && to !in dirs + Prefixes(Parent(to)) && Parent(to) in Prefixes(Parent(to))
  {
    assert to <= to;
    assert to == [] ==> Above(to, from);
    InPrefixes(to, Parent(to));
    InPrefixes(Parent(to), Parent(to));
  }

  lemma NotAmongStages(plan: seq<Operation>, staged: map<nat, nat>, s: Snap, j: nat, completed: nat, from: Path, to: Path)
    requires StagesMarked(plan, staged, s, j, completed) && Ordinary(from) && Ordinary(to) && Free(s.files, to)
    ensures forall i: nat :: i in Taken(plan, staged, j + 1, completed) ==> i < |s.paths| && i < |Moved(s, from, to).paths| && Moved(s, from, to).paths[i] != to
  {
    assert Taken(plan, staged, j + 1, completed) <= Taken(plan, staged, j, completed);
    hide Taken, Moved, Ordinary;
    var taken := Taken(plan, staged, j + 1, completed);
    forall i: nat | i in taken ensures i < |s.paths| && i < |Moved(s, from, to).paths| && Moved(s, from, to).paths[i] != to {
      assert i in Taken(plan, staged, j, completed);
      MarkedIsNot(s, i, from, to);
    }
  }

  lemma MarkedIsNot(s: Snap, i: nat, from: Path, to: Path)
    requires i < |s.paths| && !Ordinary(s.paths[i]) && Ordinary(from) && Ordinary(to) && Free(s.files, to)
    ensures i < |Moved(s, from, to).paths| && Moved(s, from, to).paths[i] != to
  {
    StillMarked(s.paths[i], from, to);
  }

  lemma {:induction false} SweptKeeps(w: World, created: seq<Path>, empties: bool)
    ensures Swept(w, created, empties).stuck == w.stuck && Swept(w, created, empties).artifacts == w.artifacts
    decreases |created|
  {
    if created != [] {
      SweptKeeps(Removed(w, created[0], empties), created[1..], empties);
    }
  }

  /** What an undo step does: it gets stuck on what is in the way, or puts one operation right. */
  ghost predicate Stepped(plan: seq<Operation>, staged: map<nat, nat>, undo: seq<Undo>, snaps: seq<Snap>, trees: seq<set<Path>>,
                          j: nat, completed: nat, w: World, left: set<Path>, empties: bool)
    requires j < |plan| && j < |snaps| && j < |trees| && j < |undo|
  {
    var after := UndoneBy(w, undo[j], empties);
    if Blocks(plan[j], snaps[j].files, left) then after.stuck
    else Along(plan, staged, undo, snaps, trees, j, completed, after, Remaining(plan[j], left, trees[j], empties))
  }

  lemma LeftImages(w: World, files: Files, dirs: set<Path>, more: set<Path>, gone: set<Path>, from: Path, to: Path, left: set<Path>)
    requires MovedFrom(w, files, dirs + more, gone, from, to, left) && !Blocked(from, from in files, left) && WellFormed(w.files, w.dirs)
    requires Ordinary(from) && (forall x :: x in left ==> Ordinary(x)) && (Ordinary(to) || forall x :: x in left ==> !(to <= x))
    ensures OutOfPlace(Images(left - {from}, to, from), files, dirs)
  {
    LeftStaysOut(w, files, dirs + more, gone, from, to, left);
    hide MovedFrom, WellFormed, Blocked, Ordinary, Renamed;
    forall x | x in left ensures Ordinary(Renamed(x, to, from)) {
      ImageIsOrdinary(x, from, to);
    }
  }

  lemma ImageIsOrdinary(x: Path, from: Path, to: Path)
    requires Ordinary(x) && Ordinary(from) && (Ordinary(to) || !(to <= x))
    ensures Ordinary(Renamed(x, to, from))
  {
    if Ordinary(to) {
      OrdinarySource(x, to, from);
    }
  }

  lemma MoveStep(plan: seq<Operation>, staged: map<nat, nat>, undo: seq<Undo>, snaps: seq<Snap>, trees: seq<set<Path>>,
                 j: nat, completed: nat, w: World, left: set<Path>, empties: bool)
    requires Ready(plan, staged, undo, snaps, trees, j, completed, w, left, empties) && plan[j].Move?
    ensures Stepped(plan, staged, undo, snaps, trees, j, completed, w, left, empties)
  {
    MoveUndone(plan, staged, undo, snaps, j, completed, w.files, Paths(w.artifacts));
    MoveKinds(plan, staged, undo, snaps, j, completed, w.files, Paths(w.artifacts));
    if undo[j].moved {
      MovedStep(plan, staged, undo, snaps, trees, j, completed, w, left, empties);
    } else {
      hide UndoneTo, NextUndo, StagesMarked, Chain, WellFormed, Needed, Swept;
      assert Images(left - {plan[j].from}, plan[j].to, plan[j].from) == {};
      SweptAlong(plan, staged, undo, snaps, trees, j, completed, w, undo[j].created, left, empties);
    }
  }

  predicate StagesWithin(taken: set<nat>, s: Snap) {
    forall i :: i in taken ==> i < |s.paths|
  }

  lemma ReadyFacts(plan: seq<Operation>, staged: map<nat, nat>, undo: seq<Undo>, snaps: seq<Snap>, trees: seq<set<Path>>,
                   j: nat, completed: nat, w: World, left: set<Path>, empties: bool)
    requires Ready(plan, staged, undo, snaps, trees, j, completed, w, left, empties)
    ensures j < |plan| && j < |undo| && j + 1 < |snaps| && j + 1 < |trees| && OrdinaryOperation(plan[j])
    ensures !w.stuck && WellFormed(w.files, w.dirs) && WellFormed(snaps[j].files, trees[j]) && w.dirs == trees[j + 1] + left
    ensures (empties ==> left == {}) && (j == completed ==> left == {}) && OutOfPlace(left, snaps[j + 1].files, trees[j + 1])
    ensures Needed(plan[j]) !! snaps[j].files.Keys
    ensures StagesWithin(Taken(plan, staged, j + 1, completed), snaps[j + 1])
    ensures forall i | 0 <= i < |w.artifacts| :: w.artifacts[i].onFailure <==> i < |snaps[j + 1].paths|
    ensures NextUndo(plan, staged, undo, snaps, j, completed, w.files, Paths(w.artifacts))
  {
    UndoneFiles(plan, staged, undo, snaps, j + 1, completed, w.files, Paths(w.artifacts));
    OpIsOrdinary(plan, j);
    hide UndoneTo, StagesMarked, Chain, WellFormed, Needed, OrdinaryPlan, OrdinaryOperation;
  }

  lemma MoveFacts(plan: seq<Operation>, staged: map<nat, nat>, undo: seq<Undo>, snaps: seq<Snap>, trees: seq<set<Path>>,
                  j: nat, completed: nat, w: World, left: set<Path>, empties: bool)
    requires Ready(plan, staged, undo, snaps, trees, j, completed, w, left, empties) && plan[j].Move?
    ensures undo[j].UndoMove? && undo[j].from == plan[j].from && undo[j].to == plan[j].to
    ensures Chain(undo[j].created, Needed(plan[j]) - trees[j]) && |snaps[j + 1].paths| == |snaps[j].paths|
    ensures Ordinary(plan[j].from) && Ordinary(plan[j].to)
  {
    ReadyFacts(plan, staged, undo, snaps, trees, j, completed, w, left, empties);
    MoveKinds(plan, staged, undo, snaps, j, completed, w.files, Paths(w.artifacts));
    hide UndoneTo, StagesMarked, Chain, WellFormed, Needed;
  }

  lemma MovedStep(plan: seq<Operation>, staged: map<nat, nat>, undo: seq<Undo>, snaps: seq<Snap>, trees: seq<set<Path>>,
                  j: nat, completed: nat, w: World, left: set<Path>, empties: bool)
    requires Ready(plan, staged, undo, snaps, trees, j, completed, w, left, empties) && plan[j].Move? && undo[j].UndoMove? && undo[j].moved
    ensures Stepped(plan, staged, undo, snaps, trees, j, completed, w, left, empties)
  {
    hide UndoneTo, NextUndo, StagesMarked, Chain, WellFormed, Needed, Swept, MovedFrom, Images, Rename, Taken, OrdinaryPlan, Ordinary, PathsOf;
    hide Ready, Blocked, Returned, Along, Rewritten, PathsRenamed, Free;
    ReadyFacts(plan, staged, undo, snaps, trees, j, completed, w, left, empties);
    MoveFacts(plan, staged, undo, snaps, trees, j, completed, w, left, empties);
    MoveIsMovedFrom(plan, staged, undo, snaps, trees, j, completed, w, left, empties);
    var from, to, gone := plan[j].from, plan[j].to, PathsOf(snaps[j + 1], Taken(plan, staged, j + 1, completed));
    var dirs := trees[j] + Needed(plan[j]);
    var r := Returned(w, to, from);
    SweptKeeps(r, undo[j].created, empties);
    if Blocked(from, from in snaps[j].files, left) {
      ReturnsUnlessBlocked(w, snaps[j].files, dirs, gone, from, to, left);
      NotReturned(w, to, from);
    } else {
      MoveUndone(plan, staged, undo, snaps, j, completed, w.files, Paths(w.artifacts));
      ReturnedWorld(w, snaps[j].files, dirs, gone, from, to, left);
      LeftImages(w, snaps[j].files, trees[j], Needed(plan[j]), gone, from, to, left);
      RewrittenPaths(w.artifacts, to, from);
      RewrittenFlags(w.artifacts, to, from);
      NoImages(from, to, left);
      SweptAlong(plan, staged, undo, snaps, trees, j, completed, r, undo[j].created, Images(left - {from}, to, from), empties);
    }
  }

  lemma NotReturned(w: World, from: Path, to: Path)
    requires !CanReturn(w, from, to)
    ensures Returned(w, from, to).stuck
  {
  }

  lemma RewrittenFlags(artifacts: seq<Artifact>, from: Path, to: Path)
    ensures var after := Rewritten(artifacts, from, to);
      |after| == |artifacts| && forall i | 0 <= i < |artifacts| :: after[i].onFailure == artifacts[i].onFailure
  {
  }

  lemma NoImages(from: Path, to: Path, left: set<Path>)
    ensures left == {} ==> Images(left - {from}, to, from) == {}
  {
  }

  // ----- backups -----

  /** Setting aside and bringing back leave what is ordinary and out of place alone. */
  lemma OrdinaryImages(left: set<Path>, backup: Path, path: Path)
    requires !Ordinary(backup) && forall x :: x in left ==> Ordinary(x)
    ensures Images(left, backup, path) == left
  {
    forall x | x in left ensures Renamed(x, backup, path) == x {
      OrdinaryStays(x, backup, path);
    }
  }

  /** The parts of a snapshot a backup was made of. */
  lemma BackupIsMovedFrom(w: World, s: Snap, dirs: set<Path>, taken: set<nat>, path: Path, backup: Path, left: set<Path>)
    requires WellFormed(s.files, dirs) && (path in s.files || path in dirs) && CanMove(s, path, backup) && Ordinary(path) && TransactionPath(backup)
    requires backup !in dirs && Parent(backup) == Parent(path)
    requires forall i :: i in taken ==> i < |s.paths| && !Ordinary(s.paths[i])
    requires w.files == Parked(s, path, backup).files - PathsOf(Parked(s, path, backup), taken)
    requires w.dirs == Images(dirs, path, backup) + left && OutOfPlace(left, Rename(s.files, path, backup), Images(dirs, path, backup))
    ensures MovedFrom(w, s.files, dirs, PathsOf(Parked(s, path, backup), taken), path, backup, left)
  {
    var gone := PathsOf(Parked(s, path, backup), taken);
    assert backup <= backup && path != [] && Above(Parent(path), path);
    forall i | i in taken ensures Parked(s, path, backup).paths[i] != backup {
      BackupIsNew(s, path, backup, i);
    }
    hide WellFormed, Ordinary, Rename, Images, CanMove, Renamed;
  }

  lemma BackupIsNew(s: Snap, path: Path, backup: Path, i: nat)
    requires i < |s.paths| && !Ordinary(s.paths[i]) && Ordinary(path) && CanMove(s, path, backup)
    ensures Parked(s, path, backup).paths[i] != backup
  {
    assert Parked(s, path, backup).paths[i] == Renamed(s.paths[i], path, backup);
    if path <= s.paths[i] {
      assert s.paths[i] == path + s.paths[i][|path|..];
      assert |s.paths[i]| > |path|;
    }
  }

  lemma BackupComesBack(w: World, files: Files, dirs: set<Path>, gone: set<Path>, path: Path, b: nat, left: set<Path>)
    requires b < |w.artifacts| && MovedFrom(w, files, dirs, gone, path, w.artifacts[b].path, left) && WellFormed(w.files, w.dirs)
    requires Ordinary(path) && !Ordinary(w.artifacts[b].path) && forall x :: x in left ==> Ordinary(x)
    ensures var r, backup := BackupReturned(w, b, path), w.artifacts[b].path;
      if Blocked(path, path in files, left) then r.stuck
      else
        && Free(w.files, path) && r.files == Rename(w.files, backup, path) && r.dirs == dirs + (left - {path})
        && OutOfPlace(left - {path}, files, dirs)
        && WellFormed(r.files, r.dirs) && r.stuck == w.stuck && Paths(r.artifacts) == PathsRenamed(Paths(w.artifacts), backup, path)
        && |r.artifacts| == |w.artifacts|
        && forall i | 0 <= i < |r.artifacts| :: r.artifacts[i].onFailure == (w.artifacts[i].onFailure && i != b)
  {
    hide MovedFrom, WellFormed, Blocked, Returned, Ordinary, Rename, Rewritten, PathsRenamed, CanReturn, Images, Free;
    var backup := w.artifacts[b].path;
    ReturnsUnlessBlocked(w, files, dirs, gone, path, backup, left);
    if !Blocked(path, path in files, left) {
      ReturnedWorld(w, files, dirs, gone, path, backup, left);
      LeftStaysOut(w, files, dirs, gone, path, backup, left);
      OrdinaryImages(left - {path}, backup, path);
      RewrittenPaths(w.artifacts, backup, path);
      RewrittenFlags(w.artifacts, backup, path);
      var renamed := Returned(w, backup, path).artifacts;
      assert Paths(BackupReturned(w, b, path).artifacts) == Paths(renamed);
    }
  }

  lemma MarkedLater(plan: seq<Operation>, staged: map<nat, nat>, s: Snap, j: nat, completed: nat)
    requires StagesMarked(plan, staged, s, j, completed)
    ensures StagesMarked(plan, staged, s, j + 1, completed)
  {
    assert Taken(plan, staged, j + 1, completed) <= Taken(plan, staged, j, completed);
  }

  /** The backup an operation made is where it was put. */
  lemma BackupPath(plan: seq<Operation>, staged: map<nat, nat>, undo: seq<Undo>, snaps: seq<Snap>,
                   j: nat, completed: nat, files: Files, paths: seq<Path>)
    requires NextUndo(plan, staged, undo, snaps, j, completed, files, paths)
    requires (undo[j].UndoRemove? || undo[j].UndoWrite?) && undo[j].backup.Some?
    ensures |snaps[j].paths| < |snaps[j + 1].paths| <= |paths| && paths[|snaps[j].paths|] == snaps[j + 1].paths[|snaps[j].paths|]
  {
    UndoFacts(plan, staged, undo, snaps, j, completed, files, paths);
    MoveKinds(plan, staged, undo, snaps, j, completed, files, paths);
    hide Tracked, OpDone, History, Taken;
  }

  lemma RemoveFacts(plan: seq<Operation>, staged: map<nat, nat>, undo: seq<Undo>, snaps: seq<Snap>, trees: seq<set<Path>>,
                    j: nat, completed: nat, w: World, left: set<Path>, empties: bool)
    requires Ready(plan, staged, undo, snaps, trees, j, completed, w, left, empties) && plan[j].Remove?
    ensures undo[j].UndoRemove? && undo[j].path == plan[j].path && Ordinary(plan[j].path)
    ensures undo[j].backup.None? ==> j == completed && trees[j + 1] == trees[j] && snaps[j + 1] == snaps[j]
    ensures undo[j].backup.Some? ==>
      && undo[j].backup.value == |snaps[j].paths| < |w.artifacts| && |snaps[j + 1].paths| == |snaps[j].paths| + 1
      && TransactionPath(w.artifacts[|snaps[j].paths|].path)
      && MovedFrom(w, snaps[j].files, trees[j], PathsOf(snaps[j + 1], Taken(plan, staged, j + 1, completed)),
                   plan[j].path, w.artifacts[|snaps[j].paths|].path, left)
  {
    ReadyFacts(plan, staged, undo, snaps, trees, j, completed, w, left, empties);
    MoveKinds(plan, staged, undo, snaps, j, completed, w.files, Paths(w.artifacts));
    UndoFacts(plan, staged, undo, snaps, j, completed, w.files, Paths(w.artifacts));
    UndoneFiles(plan, staged, undo, snaps, j + 1, completed, w.files, Paths(w.artifacts));
    if undo[j].backup.Some? {
      var path, backup, taken := plan[j].path, snaps[j + 1].paths[|snaps[j].paths|], Taken(plan, staged, j + 1, completed);
      BackupPath(plan, staged, undo, snaps, j, completed, w.files, Paths(w.artifacts));
      MarkedLater(plan, staged, snaps[j], j, completed);
      hide UndoneTo, NextUndo, WellFormed, Needed, Taken, Ordinary, CanMove, Rename, Images, History;
      assert w.artifacts[|snaps[j].paths|].path == backup;
      BackupIsMovedFrom(w, snaps[j], trees[j], taken, path, backup, left);
    }
  }

  lemma RemoveStep(plan: seq<Operation>, staged: map<nat, nat>, undo: seq<Undo>, snaps: seq<Snap>, trees: seq<set<Path>>,
                   j: nat, completed: nat, w: World, left: set<Path>, empties: bool)
    requires Ready(plan, staged, undo, snaps, trees, j, completed, w, left, empties) && plan[j].Remove?
    ensures Stepped(plan, staged, undo, snaps, trees, j, completed, w, left, empties)
  {
    hide UndoneTo, NextUndo, StagesMarked, Chain, WellFormed, Swept, MovedFrom, Images, Rename, Taken, OrdinaryPlan, Ordinary, PathsOf;
    hide Ready, Blocked, BackupReturned, PathsRenamed, Free;
    ReadyFacts(plan, staged, undo, snaps, trees, j, completed, w, left, empties);
    RemoveFacts(plan, staged, undo, snaps, trees, j, completed, w, left, empties);
    RemoveUndone(plan, staged, undo, snaps, j, completed, w.files, Paths(w.artifacts));
    var path := plan[j].path;
    if undo[j].backup.Some? {
      BackupComesBack(w, snaps[j].files, trees[j], PathsOf(snaps[j + 1], Taken(plan, staged, j + 1, completed)), path, |snaps[j].paths|, left);
      assert w.artifacts[|snaps[j].paths|].path == Paths(w.artifacts)[|snaps[j].paths|];
      assert empties ==> left - {path} == {};
    } else {
      NothingBlocks(path, path in snaps[j].files);
      assert left - {path} == {} && left == {};
    }
  }

  lemma NothingBlocks(from: Path, file: bool)
    ensures !Blocked(from, file, {})
  {
  }

  // ----- undoing a write -----

  lemma WriteFacts(plan: seq<Operation>, staged: map<nat, nat>, undo: seq<Undo>, snaps: seq<Snap>, trees: seq<set<Path>>,
                   j: nat, completed: nat, w: World, left: set<Path>, empties: bool)
    requires Ready(plan, staged, undo, snaps, trees, j, completed, w, left, empties) && plan[j].Write?
    ensures undo[j].UndoWrite? && undo[j].path == plan[j].path && Ordinary(plan[j].path)
    ensures Chain(undo[j].created, Needed(plan[j]) - trees[j]) && trees[j + 1] == trees[j] + Needed(plan[j])
    ensures WellFormed(snaps[j].files, trees[j] + Needed(plan[j]))
    ensures |snaps[j + 1].paths| == |snaps[j].paths| + (if undo[j].backup.Some? then 1 else 0)
  {
    ReadyFacts(plan, staged, undo, snaps, trees, j, completed, w, left, empties);
    MoveKinds(plan, staged, undo, snaps, j, completed, w.files, Paths(w.artifacts));
    MoreDirectories(snaps[j].files, trees[j], Parent(plan[j].path));
    hide UndoneTo, StagesMarked, Chain, WellFormed;
  }

  /** An installed target is there to be removed, and what is ordinary was not touched otherwise. */
  lemma WriteKeeps(op: Operation, stage: nat, u: Undo, s: Snap, t: Snap, complete: bool)
    requires op.Write? && WriteDone(op, stage, u, s, t, complete) && Ordinary(op.path) && (stage < |s.paths| ==> !Ordinary(s.paths[stage]))
    ensures u.installed ==> op.path in t.files
    ensures forall x :: Ordinary(x) && x in s.files && !(op.path <= x) ==> x in t.files
    ensures complete ==> u.installed
  {
    var mid := Mid(s, op.path, u.backup, t);
    if u.backup.Some? {
      RenameKeys(s.files, op.path, t.paths[|s.paths|]);
      assert forall x :: !(op.path <= x) ==> Renamed(x, op.path, t.paths[|s.paths|]) == x;
      if stage < |s.paths| {
        StillMarked(s.paths[stage], op.path, t.paths[|s.paths|]);
        assert mid.paths[stage] == Renamed(s.paths[stage], op.path, t.paths[|s.paths|]);
      }
    }
    hide Ordinary, CanMove, Rename, Renamed, TransactionPath;
  }

  /** The world with an installed target removed again. */
  function Cleared(w: World, u: Undo, empties: bool): World
    requires u.UndoWrite?
  {
    if u.installed then Removed(w, u.path, empties) else w
  }

  /** What that is: the tree before the install, with nothing ordinary out of place. */
  lemma ClearedFacts(plan: seq<Operation>, staged: map<nat, nat>, undo: seq<Undo>, snaps: seq<Snap>, trees: seq<set<Path>>,
                     j: nat, completed: nat, w: World, left: set<Path>, empties: bool)
    requires Ready(plan, staged, undo, snaps, trees, j, completed, w, left, empties) && plan[j].Write? && undo[j].UndoWrite?
    ensures Cleared(w, undo[j], empties) == w.(files := Uninstalled(w.files, undo[j]))
    ensures forall x :: x in left ==> Ordinary(x) && x !in snaps[j].files && !(plan[j].path <= x)
  {
    ReadyFacts(plan, staged, undo, snaps, trees, j, completed, w, left, empties);
    WriteFacts(plan, staged, undo, snaps, trees, j, completed, w, left, empties);
    UndoneFiles(plan, staged, undo, snaps, j + 1, completed, w.files, Paths(w.artifacts));
    var u, s, t := undo[j], snaps[j], snaps[j + 1];
    StageMarked(plan, staged, undo, snaps, j, completed, w, s);
    if j < completed {
      WriteKeeps(plan[j], StageOf(staged, j), u, s, t, true);
    }
    TargetPresent(plan, staged, undo, snaps, trees, j, completed, w, left, empties);
    if plan[j].path in w.files {
      NothingBelowFile(w.files, w.dirs, plan[j].path);
    }
    hide UndoneTo, StagesMarked, Chain, WellFormed, Needed, Taken, WriteDone, OrdinaryPlan, Ordinary, History;
  }

  lemma StageMarked(plan: seq<Operation>, staged: map<nat, nat>, undo: seq<Undo>, snaps: seq<Snap>, j: nat, completed: nat, w: World, s: Snap)
    requires j < |plan| && plan[j].Write? && StagesMarked(plan, staged, s, j, completed)
    ensures j < completed && StageOf(staged, j) < |s.paths| ==> !Ordinary(s.paths[StageOf(staged, j)])
  {
    if j < completed {
      assert StageOf(staged, j) in Taken(plan, staged, j, completed);
    }
  }

  /** The target of an install still to be undone holds a file. */
  lemma TargetPresent(plan: seq<Operation>, staged: map<nat, nat>, undo: seq<Undo>, snaps: seq<Snap>, trees: seq<set<Path>>,
                      j: nat, completed: nat, w: World, left: set<Path>, empties: bool)
    requires Ready(plan, staged, undo, snaps, trees, j, completed, w, left, empties) && plan[j].Write? && undo[j].UndoWrite?
    ensures undo[j].installed ==> plan[j].path in w.files
  {
    UndoneFiles(plan, staged, undo, snaps, j + 1, completed, w.files, Paths(w.artifacts));
    UndoFacts(plan, staged, undo, snaps, j, completed, w.files, Paths(w.artifacts));
    OpIsOrdinary(plan, j);
    var u, s, t, taken := undo[j], snaps[j], snaps[j + 1], Taken(plan, staged, j + 1, completed);
    if u.installed {
      InstalledThere(plan[j], StageOf(staged, j), u, s, t, j < completed);
      forall i | i in taken ensures t.paths[i] != plan[j].path {
        assert i in Taken(plan, staged, j, completed);
        OthersElsewhere(plan[j], StageOf(staged, j), u, s, t, i);
      }
    }
  }

  lemma InstalledThere(op: Operation, stage: nat, u: Undo, s: Snap, t: Snap, complete: bool)
    requires op.Write? && WriteDone(op, stage, u, s, t, complete) && u.installed
    ensures op.path in t.files
  {
    hide CanMove, Rename, Ordinary, TransactionPath;
  }

  /** A write puts no other artifact at its target. */
  lemma OthersElsewhere(op: Operation, stage: nat, u: Undo, s: Snap, t: Snap, i: nat)
    requires op.Write? && WriteDone(op, stage, u, s, t, true) && i < |s.paths| && i != stage && !Ordinary(s.paths[i]) && Ordinary(op.path)
    ensures t.paths[i] != op.path
  {
    if u.backup.Some? {
      StillMarked(s.paths[i], op.path, t.paths[|s.paths|]);
      assert Mid(s, op.path, u.backup, t).paths[i] == Renamed(s.paths[i], op.path, t.paths[|s.paths|]);
    }
    hide CanMove, Rename, Ordinary, TransactionPath, Renamed;
  }

  /** The file a write set aside is brought back: nothing can be in its way. */
  lemma WriteBackup(plan: seq<Operation>, staged: map<nat, nat>, undo: seq<Undo>, snaps: seq<Snap>, trees: seq<set<Path>>,
                    j: nat, completed: nat, w: World, left: set<Path>, empties: bool)
    requires Ready(plan, staged, undo, snaps, trees, j, completed, w, left, empties)
    requires plan[j].Write? && undo[j].UndoWrite? && undo[j].backup.Some?
    ensures var r := BackupReturned(Cleared(w, undo[j], empties), undo[j].backup.value, plan[j].path);
      && !r.stuck && UndoneTo(plan, staged, undo, snaps, j, completed, r.files, Paths(r.artifacts))
      && (forall i | 0 <= i < |r.artifacts| :: r.artifacts[i].onFailure <==> i < |snaps[j].paths|)
      && WellFormed(r.files, r.dirs) && r.dirs == trees[j] + Needed(plan[j]) + left
  {
    hide UndoneTo, NextUndo, StagesMarked, Chain, WellFormed, Needed, Swept, Taken, OrdinaryPlan, Ordinary, Uninstalled;
    hide Ready, BackupReturned, PathsRenamed, Free, Rename, Images, MovedFrom;
    ReadyFacts(plan, staged, undo, snaps, trees, j, completed, w, left, empties);
    WriteFacts(plan, staged, undo, snaps, trees, j, completed, w, left, empties);
    ClearedFacts(plan, staged, undo, snaps, trees, j, completed, w, left, empties);
    WriteUndone(plan, staged, undo, snaps, j, completed, w.files, Paths(w.artifacts));
    WriteMovedFrom(plan, staged, undo, snaps, trees, j, completed, w, left, empties);
    var c, b, path := Cleared(w, undo[j], empties), undo[j].backup.value, plan[j].path;
    hide Cleared;
    var d := trees[j] + Needed(plan[j]);
    var mid := Mid(snaps[j], path, undo[j].backup, snaps[j + 1]);
    FewerForm(w.files, w.dirs, c.files) by {
      UninstalledLess(w.files, undo[j]);
    }
    assert c.artifacts[b].path == Paths(c.artifacts)[b];
    assert path <= path;
    BackupComesBack(c, snaps[j].files, d, PathsOf(mid, Taken(plan, staged, j, completed)), path, b, left);
    assert !Blocked(path, path in snaps[j].files, left);
    assert left - {path} == left;
  }

  lemma UninstalledLess(files: Files, u: Undo)
    requires u.UndoWrite?
    ensures Uninstalled(files, u).Keys <= files.Keys
  {
  }

  lemma WriteMovedFrom(plan: seq<Operation>, staged: map<nat, nat>, undo: seq<Undo>, snaps: seq<Snap>, trees: seq<set<Path>>,
                       j: nat, completed: nat, w: World, left: set<Path>, empties: bool)
    requires Ready(plan, staged, undo, snaps, trees, j, completed, w, left, empties)
    requires plan[j].Write? && undo[j].UndoWrite? && undo[j].backup.Some?
    ensures |snaps[j].paths| < |snaps[j + 1].paths| && CanMove(snaps[j], plan[j].path, snaps[j + 1].paths[|snaps[j].paths|])
    ensures var mid := Mid(snaps[j], plan[j].path, undo[j].backup, snaps[j + 1]);
      && undo[j].backup.value == |snaps[j].paths| < |w.artifacts| && TransactionPath(w.artifacts[|snaps[j].paths|].path)
      && StagesWithin(Taken(plan, staged, j, completed), mid)
      && MovedFrom(Cleared(w, undo[j], empties), snaps[j].files, trees[j] + Needed(plan[j]), PathsOf(mid, Taken(plan, staged, j, completed)),
                   plan[j].path, w.artifacts[|snaps[j].paths|].path, left)
  {
    hide Chain, Needed, Taken, OrdinaryPlan, History, Tracked, Installed, Linked, CanInstall, Cleared, Uninstalled, Ordinary, Rename, Images;
    ReadyFacts(plan, staged, undo, snaps, trees, j, completed, w, left, empties);
    WriteFacts(plan, staged, undo, snaps, trees, j, completed, w, left, empties);
    ClearedFacts(plan, staged, undo, snaps, trees, j, completed, w, left, empties);
    TargetRemoved(plan, staged, undo, snaps, j, completed, w.files, Paths(w.artifacts));
    BackupPath(plan, staged, undo, snaps, j, completed, w.files, Paths(w.artifacts));
    NeededIsOrdinary(plan[j]);
    var s, path, backup, taken := snaps[j], plan[j].path, snaps[j + 1].paths[|snaps[j].paths|], Taken(plan, staged, j, completed);
    assert w.artifacts[|s.paths|].path == backup;
    hide UndoneTo, NextUndo;
    var d := trees[j] + Needed(plan[j]);
    NothingBelowFile(s.files, d, path);
    NothingMoves(d, path, backup);
    LeftBeside(s.files, path, backup, left);
    hide WellFormed, CanMove;
    BackupIsMovedFrom(Cleared(w, undo[j], empties), s, d, taken, path, backup, left);
  }

  lemma LeftBeside(files: Files, path: Path, backup: Path, left: set<Path>)
    requires Free(files, backup) && !Ordinary(backup) && forall x :: x in left ==> Ordinary(x) && x !in files
    ensures forall x :: x in left ==> x !in Rename(files, path, backup)
  {
    RenameKeys(files, path, backup);
    forall x | x in left ensures Renamed(x, backup, path) == x {
      OrdinaryStays(x, backup, path);
    }
  }

  lemma WriteStep(plan: seq<Operation>, staged: map<nat, nat>, undo: seq<Undo>, snaps: seq<Snap>, trees: seq<set<Path>>,
                  j: nat, completed: nat, w: World, left: set<Path>, empties: bool)
    requires Ready(plan, staged, undo, snaps, trees, j, completed, w, left, empties) && plan[j].Write?
    ensures Stepped(plan, staged, undo, snaps, trees, j, completed, w, left, empties)
  {
    hide UndoneTo, NextUndo, StagesMarked, Chain, WellFormed, Needed, Swept, Taken, OrdinaryPlan, Ordinary, Uninstalled;
    hide Ready, BackupReturned, PathsRenamed, Free, Rename;
    ReadyFacts(plan, staged, undo, snaps, trees, j, completed, w, left, empties);
    WriteFacts(plan, staged, undo, snaps, trees, j, completed, w, left, empties);
    ClearedFacts(plan, staged, undo, snaps, trees, j, completed, w, left, empties);
    WriteUndone(plan, staged, undo, snaps, j, completed, w.files, Paths(w.artifacts));
    var c, u := Cleared(w, undo[j], empties), undo[j];
    FewerForm(w.files, w.dirs, c.files) by {
      UninstalledLess(w.files, u);
    }
    if u.backup.Some? {
      WriteBackup(plan, staged, undo, snaps, trees, j, completed, w, left, empties);
      var r := BackupReturned(c, u.backup.value, u.path);
      SweptAlong(plan, staged, undo, snaps, trees, j, completed, r, u.created, left, empties);
    } else {
      SweptAlong(plan, staged, undo, snaps, trees, j, completed, c, u.created, left, empties);
    }
  }

  // ----- the whole rollback -----

  /** Where a plan stopped: `completed` operations are done, and perhaps one more was cut short. */
  ghost predicate Halted(plan: seq<Operation>, staged: map<nat, nat>, undo: seq<Undo>, snaps: seq<Snap>, trees: seq<set<Path>>,
                         completed: nat, base: Files) {
    && completed <= |undo| <= completed + 1 && |undo| <= |plan|
    && History(plan, staged, undo, snaps, completed) && Rooted(plan, undo, snaps, trees, |undo|)
    && OrdinaryPlan(plan) && Indexed(plan, staged, |snaps[0].paths|) && OnCourse(snaps[0], plan, staged, 0, base)
    && (|undo| == completed + 1 ==>
          OpDone(plan[completed], StageOf(staged, completed), undo[completed], snaps[completed], snaps[completed + 1], false))
  }

  lemma HistoryUpTo(plan: seq<Operation>, staged: map<nat, nat>, undo: seq<Undo>, snaps: seq<Snap>, completed: nat, j: nat)
    requires History(plan, staged, undo, snaps, completed) && j <= completed
    ensures History(plan, staged, undo, snaps, j)
  {
    hide OpDone;
  }

  /** Where operation `j` began, seen from the plan. */
  lemma HaltedAt(plan: seq<Operation>, staged: map<nat, nat>, undo: seq<Undo>, snaps: seq<Snap>, trees: seq<set<Path>>,
                 completed: nat, base: Files, j: nat)
    requires Halted(plan, staged, undo, snaps, trees, completed, base) && j <= completed
    ensures Alike(snaps[j], trees[j], PlanEffect(plan[..j], base), PlanDirs(plan[..j], trees[0]))
    ensures StagesMarked(plan, staged, snaps[j], j, completed)
  {
    HistoryUpTo(plan, staged, undo, snaps, completed, j);
    RootedUpTo(plan, undo, snaps, trees, |undo|, j);
    hide Rooted, OnCourse, Alike, OpDone, OrdinaryPlan;
    AlikeAt(plan, staged, undo, snaps, trees, j, base);
    SnapsGrow(plan, staged, undo, snaps, completed, j);
    hide History;
    forall i | i in Taken(plan, staged, j, completed) ensures i < |snaps[0].paths| && i !in Taken(plan, staged, 0, j) {
    }
  }

  lemma StepOf(plan: seq<Operation>, staged: map<nat, nat>, undo: seq<Undo>, snaps: seq<Snap>, trees: seq<set<Path>>,
               j: nat, completed: nat, w: World, left: set<Path>, empties: bool)
    requires Ready(plan, staged, undo, snaps, trees, j, completed, w, left, empties)
    ensures j < |plan| && j < |snaps| && j < |trees| && j < |undo| && Stepped(plan, staged, undo, snaps, trees, j, completed, w, left, empties)
  {
    ReadyFacts(plan, staged, undo, snaps, trees, j, completed, w, left, empties);
    hide Ready, UndoneBy, Along, Remaining;
    match plan[j]
    case Mkdir(_) => MkdirStep(plan, staged, undo, snaps, trees, j, completed, w, left, empties);
    case Write(_, _, _) => WriteStep(plan, staged, undo, snaps, trees, j, completed, w, left, empties);
    case Move(_, _) => MoveStep(plan, staged, undo, snaps, trees, j, completed, w, left, empties);
    case Remove(_) => RemoveStep(plan, staged, undo, snaps, trees, j, completed, w, left, empties);
  }

  /** What should not be there once operations `j` and later are undone. */
  function LeftOver(plan: seq<Operation>, base: Files, dirs: set<Path>, j: nat, made: nat, empties: bool): set<Path>
    requires made <= |plan|
  {
    if empties then {} else LeftAt(plan, base, dirs, j, made)
  }

  lemma GetReady(plan: seq<Operation>, staged: map<nat, nat>, undo: seq<Undo>, snaps: seq<Snap>, trees: seq<set<Path>>,
                 j: nat, completed: nat, base: Files, w: World, empties: bool)
    requires Halted(plan, staged, undo, snaps, trees, completed, base) && j < |undo|
    requires Along(plan, staged, undo, snaps, trees, j + 1, completed, w, LeftOver(plan, base, trees[0], j + 1, |undo|, empties))
    ensures Ready(plan, staged, undo, snaps, trees, j, completed, w, LeftOver(plan, base, trees[0], j + 1, |undo|, empties), empties)
  {
    HaltedAt(plan, staged, undo, snaps, trees, completed, base, j);
    RootedUpTo(plan, undo, snaps, trees, |undo|, j);
    RootedUpTo(plan, undo, snaps, trees, |undo|, |undo|);
    hide UndoneTo, OpDone, DirDone, WellFormed, StagesMarked, Rooted, OnCourse, Alike, History, Indexed, OrdinaryPlan;
    NextIs(plan, staged, undo, snaps, j, completed, w.files, Paths(w.artifacts));
    DirDoneAt(plan, undo, snaps, trees, |undo|, j);
  }

  lemma SameBlocks(op: Operation, s: Snap, d: set<Path>, files: Files, dirs: set<Path>, left: set<Path>)
    requires OrdinaryOperation(op) && Alike(s, d, files, dirs)
    ensures Blocks(op, s.files, left) <==> Blocks(op, files, left)
  {
    hide Blocked, SameOrdinary;
  }

  /** One step, in terms of the plan. */
  lemma StepOfPlan(plan: seq<Operation>, staged: map<nat, nat>, undo: seq<Undo>, snaps: seq<Snap>, trees: seq<set<Path>>,
                   j: nat, completed: nat, base: Files, w: World, empties: bool)
    requires Halted(plan, staged, undo, snaps, trees, completed, base) && j < |undo|
    requires Along(plan, staged, undo, snaps, trees, j + 1, completed, w, LeftOver(plan, base, trees[0], j + 1, |undo|, empties))
    ensures var after := UndoneBy(w, undo[j], empties);
      if !empties && BlockedAt(plan, base, trees[0], j, |undo|) then after.stuck
      else Along(plan, staged, undo, snaps, trees, j, completed, after, LeftOver(plan, base, trees[0], j, |undo|, empties))
  {
    GetReady(plan, staged, undo, snaps, trees, j, completed, base, w, empties);
    var left := LeftOver(plan, base, trees[0], j + 1, |undo|, empties);
    StepOf(plan, staged, undo, snaps, trees, j, completed, w, left, empties);
    HaltedAt(plan, staged, undo, snaps, trees, completed, base, j);
    ReadyFacts(plan, staged, undo, snaps, trees, j, completed, w, left, empties);
    hide Halted, Along, Ready, UndoneBy, Alike, NextUndo, StagesMarked, OutOfPlace, WellFormed, UndoneTo;
    SameBlocks(plan[j], snaps[j], trees[j], PlanEffect(plan[..j], base), PlanDirs(plan[..j], trees[0]), left);
    AddsAgree(plan[j], snaps[j], trees[j], PlanEffect(plan[..j], base), PlanDirs(plan[..j], trees[0]));
    NothingBlocksAt(plan[j], snaps[j].files);
    hide Blocks, AfterUndo, Adds, Needed;
  }

  lemma NothingBlocksAt(op: Operation, files: Files)
    ensures !Blocks(op, files, {})
  {
  }

  lemma {:induction false} StuckStays(w: World, undo: seq<Undo>, empties: bool)
    requires w.stuck
    ensures Unwound(w, undo, empties).stuck
    decreases |undo|
  {
    if undo != [] {
      StuckOnce(w, undo[|undo| - 1], empties);
      StuckStays(UndoneBy(w, undo[|undo| - 1], empties), undo[..|undo| - 1], empties);
    }
  }

  lemma StuckOnce(w: World, u: Undo, empties: bool)
    requires w.stuck
    ensures UndoneBy(w, u, empties).stuck
  {
    forall v: World, created ensures Swept(v, created, empties).stuck == v.stuck {
      SweptKeeps(v, created, empties);
    }
    hide CanReturn, Swept, IsEmpty, Rewritten;
  }

  /**
   A rollback from where a plan halted gets stuck exactly when `rm` refuses
   directories and one the plan made is in the way; otherwise every operation is
   undone, and only directories are left over.
   */
  lemma {:induction false} Unwinds(plan: seq<Operation>, staged: map<nat, nat>, undo: seq<Undo>, snaps: seq<Snap>, trees: seq<set<Path>>,
                                   j: nat, completed: nat, base: Files, w: World, empties: bool)
    requires Halted(plan, staged, undo, snaps, trees, completed, base) && j <= |undo|
    requires Along(plan, staged, undo, snaps, trees, j, completed, w, LeftOver(plan, base, trees[0], j, |undo|, empties))
    ensures var r := Unwound(w, undo[..j], empties);
      && (r.stuck <==> !empties && Obstructed(plan, base, trees[0], j, |undo|))
      && (!r.stuck ==> Along(plan, staged, undo, snaps, trees, 0, completed, r, LeftOver(plan, base, trees[0], 0, |undo|, empties)))
    decreases j
  {
    hide Halted, UndoneBy, BlockedAt, LeftOver, UndoneTo, WellFormed, OutOfPlace;
    if j > 0 {
      var after := UndoneBy(w, undo[j - 1], empties);
      assert undo[..j][..j - 1] == undo[..j - 1] && undo[..j][j - 1] == undo[j - 1];
      StepOfPlan(plan, staged, undo, snaps, trees, j - 1, completed, base, w, empties);
      hide Along;
      if after.stuck {
        StuckStays(after, undo[..j - 1], empties);
      } else {
        Unwinds(plan, staged, undo, snaps, trees, j - 1, completed, base, after, empties);
      }
    }
  }

  lemma HaltedPlan(plan: seq<Operation>, staged: map<nat, nat>, undo: seq<Undo>, snaps: seq<Snap>, trees: seq<set<Path>>,
                   completed: nat, base: Files)
    requires Halted(plan, staged, undo, snaps, trees, completed, base)
    ensures OrdinaryPlan(plan) && |snaps| > 0 && |trees| > 0
  {
    hide History, OpDone, OrdinaryPlan, Indexed, OnCourse;
  }

  /** What the operations recorded is what the plan's tree lacked. */
  lemma {:induction false} NotesAreBuilt(plan: seq<Operation>, staged: map<nat, nat>, undo: seq<Undo>, snaps: seq<Snap>, trees: seq<set<Path>>,
                                         completed: nat, base: Files, recorded: seq<set<Path>>, n: nat)
    requires Halted(plan, staged, undo, snaps, trees, completed, base) && Notes(plan, snaps, trees, recorded) && n <= |recorded| <= completed + 1
    ensures |trees| > 0 && Union(recorded[..n]) == Built(plan, base, trees[0], n)
    decreases n
  {
    hide Halted, Alike, StagesMarked, OrdinaryPlan;
    HaltedPlan(plan, staged, undo, snaps, trees, completed, base);
    if n > 0 {
      var j := n - 1;
      NotesAreBuilt(plan, staged, undo, snaps, trees, completed, base, recorded, j);
      assert recorded[..n][..j] == recorded[..j] && recorded[..n][j] == recorded[j];
      HaltedAt(plan, staged, undo, snaps, trees, completed, base, j);
      assert Noting(plan[j], snaps[j], trees[j], recorded[j]);
      OpIsOrdinary(plan, j);
      AddsAgree(plan[j], snaps[j], trees[j], PlanEffect(plan[..j], base), PlanDirs(plan[..j], trees[0]));
    }
  }

  lemma NothingLeft(plan: seq<Operation>, base: Files, dirs: set<Path>, made: nat, empties: bool)
    requires made <= |plan|
    ensures LeftOver(plan, base, dirs, made, made, empties) == {}
  {
  }

  /** An operation cut short is undone first, with nothing in its way. */
  lemma ObstructedUpTo(plan: seq<Operation>, base: Files, dirs: set<Path>, completed: nat, made: nat)
    requires completed <= made <= completed + 1 && made <= |plan|
    ensures Obstructed(plan, base, dirs, made, made) <==> Obstructed(plan, base, dirs, completed, made)
  {
    if made > completed {
      NothingBlocksAt(plan[completed], PlanEffect(plan[..completed], base));
      assert !BlockedAt(plan, base, dirs, completed, made);
    }
    hide BlockedAt;
  }

  /** A rollback that did not get stuck, and the clean-up of artifacts: the original files without `Lost`. */
  lemma RestoredFiles(base: Files, plan: seq<Operation>, staged: map<nat, nat>, undo: seq<Undo>, snaps: seq<Snap>, trees: seq<set<Path>>,
                      completed: nat, r: World, left: set<Path>, after: Files)
    requires Along(plan, staged, undo, snaps, trees, 0, completed, r, left) && StagedTree(base, snaps[0])
    requires forall q | q in after :: q in r.files && after[q] == r.files[q]
    requires forall q | q in r.files :: q !in after <==> RemovedBy(r.artifacts, |r.artifacts|, false, q)
    ensures completed <= |plan| && after == base - Lost(plan, completed)
  {
    hide WellFormed, OutOfPlace, StagedTree, Lost;
    RolledBackFiles(base, plan, staged, undo, snaps, completed, r.files, r.artifacts, after);
  }
}

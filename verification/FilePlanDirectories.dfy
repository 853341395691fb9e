/**
 The directories a file plan makes on its way, and what they do to its rollback
 (packages/cli/src/file-plan.ts: `ensureDirectory`, `cleanupCreatedDirectories`).
 */
module FilePlanDirectories {
  import opened Wrappers
  import opened FileTree
  import opened FilePlanHistory
  import opened FilePlanEffects

  // ----- the directories of a plan -----

  /** The directory an operation needs, with everything above it. */
  function Needed(op: Operation): set<Path> {
    match op
    case Mkdir(path) => Prefixes(path)
    case Write(path, _, _) => Prefixes(Parent(path))
    case Move(_, to) => Prefixes(Parent(to))
    case Remove(_) => {}
  }

  /** What an operation records as created: the directories missing, unless a file is in the way. */
  function Adds(op: Operation, files: Files, dirs: set<Path>): set<Path> {
    if Needed(op) !! files.Keys then Needed(op) - dirs else {}
  }

  function EffectDirs(op: Operation, dirs: set<Path>): set<Path> {
    var made := dirs + Needed(op);
    match op
    case Move(from, to) => Images(made, from, to)
    case Remove(path) => set q | q in made && !(path <= q)
    case _ => made
  }

  function PlanDirs(plan: seq<Operation>, dirs: set<Path>): set<Path> {
    if plan == [] then dirs else EffectDirs(plan[|plan| - 1], PlanDirs(plan[..|plan| - 1], dirs))
  }

  /** The directories once every write is staged beside its target. */
  function StagedDirs(plan: seq<Operation>, dirs: set<Path>): set<Path> {
    if plan == [] then dirs
    else StagedDirs(plan[..|plan| - 1], dirs) + (if plan[|plan| - 1].Write? then Needed(plan[|plan| - 1]) else {})
  }

  /** What an operation demands of the tree it meets: then it succeeds unless a call fails, and otherwise it fails. */
  predicate Goes(op: Operation, files: Files, dirs: set<Path>) {
    && Needed(op) !! files.Keys
    && match op
       case Mkdir(_) => true
       case Write(path, _, overwrite) => path !in dirs + Needed(op) && (path in files ==> overwrite)
       case Move(from, to) => (from in files || from in dirs) && to !in files && to !in dirs && to != [] && !(from <= to)
       case Remove(path) => (path in files || path in dirs) && path != []
  }

  /** What the preflight demands of an operation, all of them of the tree before the plan. */
  predicate Admitted(op: Operation, files: Files, dirs: set<Path>) {
    match op
    case Mkdir(_) => true
    case Write(path, _, overwrite) => path !in dirs && (path in files ==> overwrite)
    case Move(from, to) => (from in files || from in dirs) && to !in files && to !in dirs
    case Remove(path) => path in files || path in dirs
  }

  predicate Admits(plan: seq<Operation>, files: Files, dirs: set<Path>) {
    forall k :: 0 <= k < |plan| ==> Admitted(plan[k], files, dirs)
  }

  /** What staging write `k` demands, of the original files and the directories made for the writes before it. */
  predicate Stageable(plan: seq<Operation>, files: Files, dirs: set<Path>, k: nat)
    requires k < |plan|
  {
    plan[k].Write? ==>
      && plan[k].path !in StagedDirs(plan[..k], dirs) && (plan[k].path in files ==> plan[k].overwrite)
      && Needed(plan[k]) !! files.Keys
  }

  predicate Stages(plan: seq<Operation>, files: Files, dirs: set<Path>, n: nat)
    requires n <= |plan|
  {
    forall k :: 0 <= k < n ==> Stageable(plan, files, dirs, k)
  }

  /** Operation `k` is carried out on the tree it meets. */
  predicate GoesAt(plan: seq<Operation>, files: Files, dirs: set<Path>, k: nat)
    requires k < |plan|
  {
    Goes(plan[k], PlanEffect(plan[..k], files), PlanDirs(plan[..k], dirs))
  }

  predicate Works(plan: seq<Operation>, files: Files, dirs: set<Path>, n: nat)
    requires n <= |plan|
  {
    forall k :: 0 <= k < n ==> GoesAt(plan, files, dirs, k)
  }

  lemma NothingWorked(plan: seq<Operation>, files: Files, dirs: set<Path>)
    ensures Works(plan, files, dirs, 0)
  {
  }

  lemma WorksOn(plan: seq<Operation>, files: Files, dirs: set<Path>, n: nat)
    requires n < |plan| && Works(plan, files, dirs, n) && GoesAt(plan, files, dirs, n)
    ensures Works(plan, files, dirs, n + 1)
  {
    hide GoesAt;
  }

  /** Everything a plan demands of the tree before it. */
  predicate Performable(plan: seq<Operation>, files: Files, dirs: set<Path>) {
    && Admits(plan, files, dirs) && Stages(plan, files, dirs, |plan|)
    && Works(plan, files, StagedDirs(plan, dirs), |plan|)
  }

  lemma PerformableParts(plan: seq<Operation>, files: Files, dirs: set<Path>)
    ensures Performable(plan, files, dirs) <==>
      Admits(plan, files, dirs) && Stages(plan, files, dirs, |plan|) && Works(plan, files, StagedDirs(plan, dirs), |plan|)
  {
    hide Admits, Stages, Works;
  }

  function AddsAt(plan: seq<Operation>, files: Files, dirs: set<Path>, j: nat): set<Path>
    requires j < |plan|
  {
    Adds(plan[j], PlanEffect(plan[..j], files), PlanDirs(plan[..j], dirs))
  }

  /** What the first `n` operations record as created. */
  function Built(plan: seq<Operation>, files: Files, dirs: set<Path>, n: nat): set<Path>
    requires n <= |plan|
  {
    if n == 0 then {} else Built(plan, files, dirs, n - 1) + AddsAt(plan, files, dirs, n - 1)
  }

  // ----- what they leave in the way of a rollback -----

  /**
   Directories that should not be there, before and after undoing one operation: a
   directory that returns takes the place of an empty one, and those the operation
   made stay where `rm` does not remove a directory.
   */
  function AfterUndo(op: Operation, left: set<Path>, added: set<Path>): set<Path> {
    match op
    case Move(from, to) => Images(left - {from}, to, from) + added
    case Remove(path) => left - {path}
    case _ => left + added
  }

  /** A rename back to `from` fails: onto any directory for a file, onto one that is not empty for a directory. */
  predicate Blocked(from: Path, file: bool, left: set<Path>) {
    from in left && (file || exists x | x in left :: Above(from, x))
  }

  predicate Blocks(op: Operation, files: Files, left: set<Path>) {
    match op
    case Move(from, _) => Blocked(from, from in files, left)
    case Remove(path) => Blocked(path, path in files, left)
    case _ => false
  }

  /** The directories left over once operations `j` and later of the `made` that made any are undone. */
  function LeftAt(plan: seq<Operation>, files: Files, dirs: set<Path>, j: nat, made: nat): set<Path>
    requires made <= |plan|
    decreases made - j
  {
    if j >= made then {} else AfterUndo(plan[j], LeftAt(plan, files, dirs, j + 1, made), AddsAt(plan, files, dirs, j))
  }

  predicate BlockedAt(plan: seq<Operation>, files: Files, dirs: set<Path>, j: nat, made: nat)
    requires j < |plan| && made <= |plan|
  {
    Blocks(plan[j], PlanEffect(plan[..j], files), LeftAt(plan, files, dirs, j + 1, made))
  }

  /** Where `rm` does not remove directories, undoing one of the first `n` operations fails. */
  predicate Obstructed(plan: seq<Operation>, files: Files, dirs: set<Path>, n: nat, made: nat)
    requires n <= |plan| && made <= |plan|
  {
    exists j | 0 <= j < n :: BlockedAt(plan, files, dirs, j, made)
  }

  /**
   Where a plan can stop: `completed` operations are done, the first `made` have made
   their directories, and the first `asked` have recorded them. A directory made
   completes its operation, and a removal asks for none.
   */
  predicate StopsAt(plan: seq<Operation>, completed: nat, made: nat, asked: nat) {
    && completed < |plan| && completed <= made <= asked <= completed + 1
    && (plan[completed].Mkdir? ==> made == completed) && (plan[completed].Remove? ==> made == asked)
  }

  /** A plan that stops at an operation its tree refuses cannot be carried out. */
  lemma StopsForGood(plan: seq<Operation>, files: Files, dirs: set<Path>, k: nat, made: nat, asked: nat)
    requires StopsAt(plan, k, made, asked)
    ensures k < |plan| && (!GoesAt(plan, files, dirs, k) ==> !Works(plan, files, dirs, |plan|))
  {
    hide GoesAt;
  }

  lemma StopsFirst(plan: seq<Operation>)
    requires plan != []
    ensures StopsAt(plan, 0, 0, 0)
  {
  }

  /** Before any operation ran nothing is lost, recorded or in the way. */
  lemma NothingStarted(plan: seq<Operation>, files: Files, dirs: set<Path>)
    ensures Lost(plan, 0) == {} && Built(plan, files, dirs, 0) == {} && !Obstructed(plan, files, dirs, 0, 0)
    ensures files - Lost(plan, 0) - Built(plan, files, dirs, 0) == files
  {
  }

  // ----- the directories of a history -----

  /** The directories in `added`, each once and none above a later one. */
  ghost predicate Chain(created: seq<Path>, added: set<Path>) {
    && (forall p :: p in created <==> p in added)
    && (forall i, j :: 0 <= i < j < |created| ==> created[i] != created[j] && !Above(created[i], created[j]))
  }

  /** An operation's undo entry names the directories made for it, and `e` are the directories after it. */
  ghost predicate DirDone(op: Operation, u: Undo, s: Snap, d: set<Path>, t: Snap, e: set<Path>) {
    Needed(op) !! s.files.Keys &&
    match u
    case UndoMkdir(created) => Chain(created, Needed(op) - d) && e == d + Needed(op)
    case UndoWrite(path, _, backup, created) =>
      && Chain(created, Needed(op) - d) && e == d + Needed(op)
      && (backup.Some? ==>
            && path in s.files && |s.paths| < |t.paths|
            && t.paths[|s.paths|] !in d && Parent(t.paths[|s.paths|]) == Parent(path))
    case UndoMove(from, to, moved, created) =>
      && Chain(created, Needed(op) - d)
      && if moved then (from in s.files || from in d) && to !in d && e == Images(d + Needed(op), from, to) else e == d + Needed(op)
    case UndoRemove(path, backup) =>
      if backup.None? then e == d
      else
        && |s.paths| < |t.paths| && (path in s.files || path in d)
        && t.paths[|s.paths|] !in d && Parent(t.paths[|s.paths|]) == Parent(path)
        && e == Images(d, path, t.paths[|s.paths|])
  }

  lemma MovedDone(op: Operation, created: seq<Path>, s: Snap, d: set<Path>, t: Snap, e: set<Path>)
    requires op.Move? && Needed(op) !! s.files.Keys && Chain(created, Needed(op) - d)
    requires (op.from in s.files || op.from in d) && op.to !in d && e == Images(d + Needed(op), op.from, op.to)
    ensures DirDone(op, UndoMove(op.from, op.to, true, created), s, d, t, e)
  {
  }

  lemma RemovedDone(op: Operation, s: Snap, d: set<Path>, t: Snap, e: set<Path>)
    requires op.Remove? && |t.paths| == |s.paths| + 1 && (op.path in s.files || op.path in d)
    requires t.paths[|s.paths|] !in d && Parent(t.paths[|s.paths|]) == Parent(op.path) && e == Images(d, op.path, t.paths[|s.paths|])
    ensures DirDone(op, UndoRemove(op.path, Some(|s.paths|)), s, d, t, e)
  {
  }

  lemma AsideDone(op: Operation, created: seq<Path>, b: nat, s: Snap, d: set<Path>, t: Snap, e: set<Path>)
    requires op.Write? && Needed(op) !! s.files.Keys && Chain(created, Needed(op) - d) && e == d + Needed(op)
    requires op.path in s.files && |t.paths| == |s.paths| + 1 && t.paths[|s.paths|] !in d && Parent(t.paths[|s.paths|]) == Parent(op.path)
    ensures DirDone(op, UndoWrite(op.path, false, Some(b), created), s, d, t, e)
  {
  }

  ghost predicate Rooted(plan: seq<Operation>, undo: seq<Undo>, snaps: seq<Snap>, trees: seq<set<Path>>, n: nat) {
    && n <= |plan| && n <= |undo| && n < |snaps| && n < |trees|
    && (forall j | 0 <= j <= n :: WellFormed(snaps[j].files, trees[j]))
    && (forall j | 0 <= j < n :: DirDone(plan[j], undo[j], snaps[j], trees[j], snaps[j + 1], trees[j + 1]))
  }

  lemma NeededIsOrdinary(op: Operation)
    requires OrdinaryOperation(op)
    ensures forall q :: q in Needed(op) ==> Ordinary(q)
  {
    forall q | q in Needed(op) ensures Ordinary(q) {
      var p := match op case Mkdir(path) => path case Write(path, _, _) => Parent(path) case Move(_, to) => Parent(to) case Remove(path) => path;
      assert q in Prefixes(p);
      var k :| 0 <= k <= |p| && q == p[..k];
      assert Ordinary(p);
      assert forall i :: 0 <= i < |q| ==> q[i] == p[i];
    }
  }

  /** The same ordinary paths are files, and the same are directories. */
  ghost predicate Alike(s: Snap, d: set<Path>, files: Files, dirs: set<Path>) {
    (forall q :: Ordinary(q) ==> (q in s.files <==> q in files)) && SameOrdinary(d, dirs)
  }

  ghost predicate SameOrdinary(d: set<Path>, dirs: set<Path>) {
    forall q :: Ordinary(q) ==> (q in d <==> q in dirs)
  }

  lemma OrdinarySource(p: Path, from: Path, to: Path)
    requires Ordinary(from) && Ordinary(to)
    ensures Ordinary(Renamed(p, from, to)) <==> Ordinary(p)
  {
    var r := Renamed(p, from, to);
    if from <= p {
      assert forall i :: 0 <= i < |p[|from|..]| ==> p[|from| + i] == r[|to| + i] == p[|from|..][i];
      assert forall i :: 0 <= i < |from| ==> p[i] == from[i];
      if Ordinary(r) {
        forall i | 0 <= i < |p| ensures p[i].Plain? {
          assert i >= |from| ==> p[i] == r[|to| + (i - |from|)];
        }
      }
      if Ordinary(p) {
        forall i | 0 <= i < |r| ensures r[i].Plain? {
          assert i >= |to| ==> r[i] == p[|from| + (i - |to|)];
        }
      }
    }
  }

  lemma SameImages(d: set<Path>, dirs: set<Path>, from: Path, to: Path)
    requires Ordinary(from) && Ordinary(to) && SameOrdinary(d, dirs)
    ensures SameOrdinary(Images(d, from, to), Images(dirs, from, to))
  {
    forall q, a, b | ((a == d && b == dirs) || (a == dirs && b == d)) && Ordinary(q) && q in Images(a, from, to)
      ensures q in Images(b, from, to)
    {
      var x :| x in a && q == Renamed(x, from, to);
      OrdinarySource(x, from, to);
      assert x in b;
    }
  }

  lemma ParkedIsMarked(x: Path, path: Path, backup: Path)
    requires !Ordinary(backup)
    ensures path <= x ==> !Ordinary(Renamed(x, path, backup))
  {
    var i :| 0 <= i < |backup| && !backup[i].Plain?;
    assert path <= x ==> Renamed(x, path, backup)[i] == backup[i];
  }

  /** Setting a path aside takes what is below it out of the ordinary. */
  lemma SameParked(d: set<Path>, path: Path, backup: Path)
    requires Ordinary(path) && !Ordinary(backup)
    ensures SameOrdinary(Images(d, path, backup), set q | q in d && !(path <= q))
  {
    forall q | Ordinary(q) && q in Images(d, path, backup) ensures q in d && !(path <= q) {
      var x :| x in d && q == Renamed(x, path, backup);
      ParkedIsMarked(x, path, backup);
    }
    forall q | Ordinary(q) && q in d && !(path <= q) ensures q in Images(d, path, backup) {
      assert q == Renamed(q, path, backup);
    }
  }

  lemma DirsOnCourse(op: Operation, stage: nat, u: Undo, s: Snap, d: set<Path>, t: Snap, e: set<Path>, dirs: set<Path>)
    requires OrdinaryOperation(op) && OpDone(op, stage, u, s, t, true)
    requires DirDone(op, u, s, d, t, e) && SameOrdinary(d, dirs)
    ensures SameOrdinary(e, EffectDirs(op, dirs))
  {
    match op
    case Move(from, to) =>
      assert SameOrdinary(d + Needed(op), dirs + Needed(op));
      SameImages(d + Needed(op), dirs + Needed(op), from, to);
    case Remove(path) =>
      SameParked(d, path, t.paths[|s.paths|]);
    case _ =>
  }

  lemma PlanNext(plan: seq<Operation>, n: nat, files: Files, dirs: set<Path>)
    requires n < |plan|
    ensures PlanEffect(plan[..n + 1], files) == Effect(plan[n], PlanEffect(plan[..n], files))
    ensures PlanDirs(plan[..n + 1], dirs) == EffectDirs(plan[n], PlanDirs(plan[..n], dirs))
  {
    assert plan[..n + 1][..n] == plan[..n] && plan[..n + 1][n] == plan[n];
  }

  /** The directories of a history are those of the plan, seen from ordinary paths. */
  lemma {:induction false} DirsAgree(plan: seq<Operation>, staged: map<nat, nat>, undo: seq<Undo>, snaps: seq<Snap>, trees: seq<set<Path>>, n: nat, base: Files)
    requires History(plan, staged, undo, snaps, n) && Rooted(plan, undo, snaps, trees, n) && OrdinaryPlan(plan)
    ensures SameOrdinary(trees[n], PlanDirs(plan[..n], trees[0]))
    decreases n
  {
    hide OpDone, DirDone, WellFormed, SameOrdinary, EffectDirs;
    if n == 0 {
      assert plan[..0] == [];
      SameAsItself(trees[0]);
    } else {
      var j := n - 1;
      assert DirDone(plan[j], undo[j], snaps[j], trees[j], snaps[j + 1], trees[j + 1]);
      assert OpDone(plan[j], StageOf(staged, j), undo[j], snaps[j], snaps[j + 1], true);
      DirsAgree(plan, staged, undo, snaps, trees, j, base);
      PlanNext(plan, j, base, trees[0]);
      assert OrdinaryOperation(plan[j]);
      DirsOnCourse(plan[j], StageOf(staged, j), undo[j], snaps[j], trees[j], snaps[j + 1], trees[j + 1], PlanDirs(plan[..j], trees[0]));
    }
  }

  lemma SameAsItself(d: set<Path>)
    ensures SameOrdinary(d, d)
  {
  }

  /** Every snapshot of a history looks like the plan's tree so far. */
  lemma AlikeAt(plan: seq<Operation>, staged: map<nat, nat>, undo: seq<Undo>, snaps: seq<Snap>, trees: seq<set<Path>>, n: nat, base: Files)
    requires History(plan, staged, undo, snaps, n) && Rooted(plan, undo, snaps, trees, n) && OrdinaryPlan(plan)
    requires Indexed(plan, staged, |snaps[0].paths|) && OnCourse(snaps[0], plan, staged, 0, base)
    ensures Alike(snaps[n], trees[n], PlanEffect(plan[..n], base), PlanDirs(plan[..n], trees[0]))
    ensures Marked(snaps[n], Taken(plan, staged, 0, n))
  {
    HistoryOnCourse(plan, staged, undo, snaps, n, base);
    DirsAgree(plan, staged, undo, snaps, trees, n, base);
    hide History, Rooted, SameOrdinary, Staged, Leaves, PlanEffect, PlanDirs, OrdinaryPlan, Indexed, Taken;
    var taken := Taken(plan, staged, 0, n);
    forall q | Ordinary(q) ensures q in snaps[n].files <==> q in PlanEffect(plan[..n], base) {
      OrdinaryIsVisible(snaps[n], taken, q);
      assert q in Visible(snaps[n], taken) <==> q in PlanEffect(plan[..n], base);
    }
  }

  /** An operation demands nothing of what is not ordinary. */
  lemma GoesAlike(op: Operation, s: Snap, d: set<Path>, files: Files, dirs: set<Path>)
    requires OrdinaryOperation(op) && Alike(s, d, files, dirs)
    ensures Goes(op, s.files, d) <==> Goes(op, files, dirs)
  {
    NeededIsOrdinary(op);
    hide Needed, Ordinary;
    assert Needed(op) !! s.files.Keys <==> Needed(op) !! files.Keys;
  }

  /** Staging sees the original files. */
  lemma StagingSees(base: Files, s: Snap, op: Operation)
    requires StagedTree(base, s) && op.Write? && OrdinaryOperation(op)
    ensures (op.path in s.files <==> op.path in base) && (Needed(op) !! s.files.Keys <==> Needed(op) !! base.Keys)
  {
    NeededIsOrdinary(op);
    hide Needed;
    forall q | Ordinary(q) ensures q in s.files <==> q in base {
      assert forall i :: 0 <= i < |s.paths| ==> s.paths[i] != q;
    }
    hide Ordinary, StagedTree;
  }

  /** What an operation found missing is what the plan's tree lacks. */
  lemma AddsAgree(op: Operation, s: Snap, d: set<Path>, files: Files, dirs: set<Path>)
    requires OrdinaryOperation(op) && Alike(s, d, files, dirs) && Needed(op) !! s.files.Keys
    ensures Needed(op) - d == Adds(op, files, dirs)
  {
    NeededIsOrdinary(op);
    hide Needed, Ordinary;
    assert Needed(op) !! files.Keys;
  }

  /** What an operation records as created. */
  ghost predicate Noting(op: Operation, s: Snap, d: set<Path>, added: set<Path>) {
    Needed(op) !! s.files.Keys && added == Needed(op) - d
  }

  ghost predicate Notes(plan: seq<Operation>, snaps: seq<Snap>, trees: seq<set<Path>>, recorded: seq<set<Path>>) {
    && |recorded| <= |plan| && |recorded| <= |snaps| && |recorded| <= |trees|
    && (forall j | 0 <= j < |recorded| :: Noting(plan[j], snaps[j], trees[j], recorded[j]))
  }

  lemma NotesKept(plan: seq<Operation>, snaps: seq<Snap>, trees: seq<set<Path>>, snaps': seq<Snap>, trees': seq<set<Path>>, recorded: seq<set<Path>>)
    requires Notes(plan, snaps, trees, recorded) && |recorded| <= |snaps'| && |recorded| <= |trees'|
    requires snaps'[..|recorded|] == snaps[..|recorded|] && trees'[..|recorded|] == trees[..|recorded|]
    ensures Notes(plan, snaps', trees', recorded)
  {
    hide Noting;
    forall j | 0 <= j < |recorded| ensures snaps'[j] == snaps[j] && trees'[j] == trees[j] {
      assert snaps'[..|recorded|][j] == snaps[..|recorded|][j] && trees'[..|recorded|][j] == trees[..|recorded|][j];
    }
  }

  function Union(sets: seq<set<Path>>): set<Path> {
    if sets == [] then {} else Union(sets[..|sets| - 1]) + sets[|sets| - 1]
  }

  lemma UnionNext(sets: seq<set<Path>>, more: set<Path>)
    ensures Union(sets + [more]) == Union(sets) + more
  {
    assert (sets + [more])[..|sets|] == sets;
  }

  /** The prefixes that were found missing, up to the first that exists, are all that are. */
  lemma MissingIs(files: Files, dirs: set<Path>, path: Path, created: seq<Path>)
    requires WellFormed(files, dirs) && |created| <= |path| + 1
    requires forall i :: 0 <= i < |created| ==> created[i] == path[..|path| - i] && created[i] !in files && created[i] !in dirs
    requires |created| <= |path| ==> path[..|path| - |created|] in dirs
    ensures (set p | p in created) == Prefixes(path) - dirs && Prefixes(path) !! files.Keys && Chain(created, Prefixes(path) - dirs)
  {
    forall k | 0 <= k <= |path| ensures if k > |path| - |created| then path[..k] in created else path[..k] in dirs {
      if k > |path| - |created| {
        assert created[|path| - k] == path[..k];
      } else if k < |path| - |created| {
        assert path[..|path| - |created|][..k] == path[..k];
        assert Above(path[..k], path[..|path| - |created|]);
      }
    }
    forall p | p in created ensures p in Prefixes(path) {
    }
  }

  lemma RootedUpTo(plan: seq<Operation>, undo: seq<Undo>, snaps: seq<Snap>, trees: seq<set<Path>>, n: nat, j: nat)
    requires Rooted(plan, undo, snaps, trees, n) && j <= n
    ensures Rooted(plan, undo, snaps, trees, j) && WellFormed(snaps[j].files, trees[j])
    ensures j < n ==> DirDone(plan[j], undo[j], snaps[j], trees[j], snaps[j + 1], trees[j + 1])
  {
    hide DirDone, WellFormed;
  }

  lemma DirDoneAt(plan: seq<Operation>, undo: seq<Undo>, snaps: seq<Snap>, trees: seq<set<Path>>, n: nat, j: nat)
    requires Rooted(plan, undo, snaps, trees, n) && j < n
    ensures DirDone(plan[j], undo[j], snaps[j], trees[j], snaps[j + 1], trees[j + 1])
  {
    hide DirDone, WellFormed;
  }

  /** A history of directories goes on by one entry. */
  lemma RootedNext(plan: seq<Operation>, undo: seq<Undo>, snaps: seq<Snap>, trees: seq<set<Path>>,
                   undo': seq<Undo>, snaps': seq<Snap>, trees': seq<set<Path>>, next: nat)
    requires Rooted(plan, undo, snaps, trees, next) && next < |plan| && next < |undo'| && next + 1 < |snaps'| && next + 1 < |trees'|
    requires undo'[..next] == undo[..next] && snaps'[..next + 1] == snaps[..next + 1] && trees'[..next + 1] == trees[..next + 1]
    requires WellFormed(snaps'[next + 1].files, trees'[next + 1])
    requires DirDone(plan[next], undo'[next], snaps'[next], trees'[next], snaps'[next + 1], trees'[next + 1])
    ensures Rooted(plan, undo', snaps', trees', next + 1)
  {
    hide DirDone, WellFormed;
    forall j | 0 <= j <= next ensures snaps'[j] == snaps[j] && trees'[j] == trees[j] {
      assert snaps'[..next + 1][j] == snaps[..next + 1][j] && trees'[..next + 1][j] == trees[..next + 1][j];
    }
    forall j | 0 <= j < next ensures undo'[j] == undo[j] {
      assert undo'[..next][j] == undo[..next][j];
    }
  }
}

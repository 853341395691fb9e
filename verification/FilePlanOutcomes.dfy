/**
 Which plans a rollback restores in full (packages/cli/src/file-plan.ts), as a caller
 can tell from the plan and the tree before applying it, and runs of plans that it
 does not.
 */
module FilePlanOutcomes {
  import opened Wrappers
  import opened FileTree
  import opened FilePlanHistory
  import opened FilePlanEffects
  import opened FilePlanDirectories
  import opened FilePlanRollback

  /** A plan that stops here is rolled back without a failing rename, and to the original files. */
  predicate Restores(plan: seq<Operation>, files: Files, dirs: set<Path>, completed: nat, made: nat, asked: nat, empties: bool)
    requires StopsAt(plan, completed, made, asked)
  {
    && (empties || !Obstructed(plan, files, dirs, completed, made))
    && files - Lost(plan, completed) - Built(plan, files, dirs, asked) == files
  }

  // ----- the further a plan gets, the more is at stake -----

  lemma LostGrows(plan: seq<Operation>, completed: nat, later: nat)
    requires completed <= later <= |plan|
    ensures Lost(plan, completed) <= Lost(plan, later)
  {
    forall p | p in Lost(plan, completed) ensures p in Lost(plan, later) {
      var k :| 0 <= k < completed && plan[k].Write? && p == Back(plan[..k], plan[k].path);
    }
  }

  lemma {:induction false} BuiltGrows(plan: seq<Operation>, files: Files, dirs: set<Path>, asked: nat, later: nat)
    requires asked <= later <= |plan|
    ensures Built(plan, files, dirs, asked) <= Built(plan, files, dirs, later)
    decreases later
  {
    if asked < later {
      BuiltGrows(plan, files, dirs, asked, later - 1);
    }
  }

  lemma AfterUndoGrows(op: Operation, less: set<Path>, more: set<Path>, added: set<Path>)
    requires less <= more
    ensures AfterUndo(op, less, added) <= AfterUndo(op, more, added)
  {
  }

  lemma {:induction false} LeftGrows(plan: seq<Operation>, files: Files, dirs: set<Path>, j: nat, made: nat, later: nat)
    requires made <= later <= |plan|
    ensures LeftAt(plan, files, dirs, j, made) <= LeftAt(plan, files, dirs, j, later)
    decreases later - j
  {
    if j < made {
      LeftGrows(plan, files, dirs, j + 1, made, later);
      AfterUndoGrows(plan[j], LeftAt(plan, files, dirs, j + 1, made), LeftAt(plan, files, dirs, j + 1, later), AddsAt(plan, files, dirs, j));
      hide AfterUndo, AddsAt;
    }
  }

  lemma ObstructedGrows(plan: seq<Operation>, files: Files, dirs: set<Path>, completed: nat, made: nat, n: nat, later: nat)
    requires completed <= n <= |plan| && made <= later <= |plan| && Obstructed(plan, files, dirs, completed, made)
    ensures Obstructed(plan, files, dirs, n, later)
  {
    var j :| 0 <= j < completed && BlockedAt(plan, files, dirs, j, made);
    LeftGrows(plan, files, dirs, j + 1, made, later);
    hide LeftAt, PlanEffect;
    assert BlockedAt(plan, files, dirs, j, later);
  }

  lemma RestoredHere(plan: seq<Operation>, files: Files, dirs: set<Path>, completed: nat, asked: nat)
    requires completed <= |plan| && asked <= |plan|
    ensures files - Lost(plan, completed) - Built(plan, files, dirs, asked) == files <==>
      forall p :: p in files ==> p !in Lost(plan, completed) && p !in Built(plan, files, dirs, asked)
  {
    hide Lost, Built;
    if files - Lost(plan, completed) - Built(plan, files, dirs, asked) == files {
      forall p | p in files ensures p !in Lost(plan, completed) && p !in Built(plan, files, dirs, asked) {
        assert p in files - Lost(plan, completed) - Built(plan, files, dirs, asked);
      }
    }
  }

  /** How many operations have made their directories when the last one stops as late as it can. */
  function LastMade(plan: seq<Operation>): nat
    requires plan != []
  {
    if plan[|plan| - 1].Mkdir? then |plan| - 1 else |plan|
  }

  /**
   What a caller can tell beforehand: from every point at which the plan can stop it is
   rolled back to the original files without a failing rename, exactly when none of them
   is where the clean-ups of its last operation would delete, and, where `rm` refuses
   directories, none of the directories made for the plan is in the way.
   */
  lemma RestoredWhereverItStops(plan: seq<Operation>, files: Files, dirs: set<Path>, empties: bool)
    requires plan != []
    ensures (forall completed, made, asked | StopsAt(plan, completed, made, asked) :: Restores(plan, files, dirs, completed, made, asked, empties)) <==>
      && (empties || !Obstructed(plan, files, dirs, |plan| - 1, LastMade(plan)))
      && (forall p :: p in files ==> p !in Lost(plan, |plan| - 1) && p !in Built(plan, files, dirs, |plan|))
  {
    var n, last := |plan|, LastMade(plan);
    assert StopsAt(plan, n - 1, last, n);
    RestoredHere(plan, files, dirs, n - 1, n);
    forall completed, made, asked | StopsAt(plan, completed, made, asked)
      ensures Restores(plan, files, dirs, n - 1, last, n, empties) ==> Restores(plan, files, dirs, completed, made, asked, empties)
    {
      if Obstructed(plan, files, dirs, completed, made) {
        ObstructedGrows(plan, files, dirs, completed, made, n - 1, last);
      }
      LostGrows(plan, completed, n - 1);
      BuiltGrows(plan, files, dirs, asked, n);
      RestoredHere(plan, files, dirs, completed, asked);
      hide Lost, Built, Obstructed;
    }
    hide Obstructed, Lost, Built;
  }

  // ----- the plans the builders make -----

  /** Nothing is renamed away, and no write targets a directory. */
  predicate Additive(plan: seq<Operation>, dirs: set<Path>) {
    forall k :: 0 <= k < |plan| ==> plan[k].Mkdir? || (plan[k].Write? && plan[k].path !in dirs)
  }

  lemma {:induction false} OriginalsKept(plan: seq<Operation>, files: Files, before: set<Path>)
    requires WellFormed(files, before) && Additive(plan, before)
    ensures files.Keys <= PlanEffect(plan, files).Keys
  {
    if plan != [] {
      var n := |plan| - 1;
      assert forall k :: 0 <= k < n ==> plan[..n][k] == plan[k];
      OriginalsKept(plan[..n], files, before);
      forall p | p in files ensures p in Effect(plan[n], PlanEffect(plan[..n], files)) {
        if plan[n].Write? {
          PrefixIsAbove(plan[n].path, p);
        }
      }
    }
  }

  /** Only missing directories are recorded, and where an original file is none is missing. */
  lemma {:induction false} BuiltApart(plan: seq<Operation>, files: Files, before: set<Path>, dirs: set<Path>, n: nat)
    requires WellFormed(files, before) && Additive(plan, before) && n <= |plan|
    ensures Built(plan, files, dirs, n) !! files.Keys
  {
    if n > 0 {
      BuiltApart(plan, files, before, dirs, n - 1);
      assert forall k :: 0 <= k < n - 1 ==> plan[..n - 1][k] == plan[k];
      OriginalsKept(plan[..n - 1], files, before);
      hide WellFormed, Needed, PlanEffect, PlanDirs, Additive;
    }
  }

  /**
   A plan of new directories and writes is restored exactly when no write that
   completed found a file at its target: every stop of a plan that overwrites nothing
   is undone in full.
   */
  lemma WritesRestored(plan: seq<Operation>, files: Files, before: set<Path>, completed: nat, made: nat, asked: nat, empties: bool)
    requires WellFormed(files, before) && Additive(plan, before) && StopsAt(plan, completed, made, asked)
    ensures Restores(plan, files, StagedDirs(plan, before), completed, made, asked, empties) <==>
      forall k | 0 <= k < completed && plan[k].Write? :: plan[k].path !in files
  {
    var dirs := StagedDirs(plan, before);
    BuiltApart(plan, files, before, dirs, asked);
    LostAreTargets(plan, completed, files);
    RestoredHere(plan, files, dirs, completed, asked);
    RestoredExactly(plan, completed, files);
    forall j | 0 <= j < completed ensures !BlockedAt(plan, files, dirs, j, made) {
    }
    hide Lost, Built, BlockedAt;
  }

  lemma {:induction false} NothingMade(plan: seq<Operation>, files: Files, dirs: set<Path>, n: nat)
    requires n <= |plan| && forall k :: 0 <= k < |plan| ==> plan[k].Remove?
    ensures Built(plan, files, dirs, n) == {}
  {
    if n > 0 {
      NothingMade(plan, files, dirs, n - 1);
    }
  }

  lemma {:induction false} NothingLeftOver(plan: seq<Operation>, files: Files, dirs: set<Path>, j: nat, made: nat)
    requires made <= |plan| && forall k :: 0 <= k < |plan| ==> plan[k].Remove?
    ensures LeftAt(plan, files, dirs, j, made) == {}
    decreases made - j
  {
    if j < made {
      NothingLeftOver(plan, files, dirs, j + 1, made);
    }
  }

  /** A plan of removals, or of one operation, is restored wherever it stops. */
  lemma RemovalsRestored(plan: seq<Operation>, files: Files, dirs: set<Path>, completed: nat, made: nat, asked: nat, empties: bool)
    requires StopsAt(plan, completed, made, asked) && (|plan| == 1 || forall k :: 0 <= k < |plan| ==> plan[k].Remove?)
    ensures Restores(plan, files, dirs, completed, made, asked, empties)
  {
    if |plan| == 1 {
      assert plan[..0] == [];
      assert Built(plan, files, dirs, asked) <= Adds(plan[0], files, dirs) by {
        BuiltGrows(plan, files, dirs, asked, 1);
      }
    } else {
      NothingMade(plan, files, dirs, asked);
      forall j | 0 <= j < completed ensures !BlockedAt(plan, files, dirs, j, made) {
        NothingLeftOver(plan, files, dirs, j + 1, made);
      }
    }
    assert Lost(plan, completed) == {};
    RestoredHere(plan, files, dirs, completed, asked);
  }

  // ----- when a plan commits -----

  /** A plan of one operation, in terms of what is there before it. */
  lemma OneOperationCommits(op: Operation, files: Files, dirs: set<Path>)
    requires WellFormed(files, dirs)
    ensures Performable([op], files, dirs) <==>
      match op
      case Mkdir(path) => forall q :: q in files ==> q != path && !Above(q, path)
      case Write(path, _, overwrite) =>
        path != [] && path !in dirs && (path in files ==> overwrite) && forall q :: q in files ==> !Above(q, path)
      case Move(from, to) =>
        && (from in files || from in dirs) && to !in files && to !in dirs && to != [] && !(from <= to)
        && forall q :: q in files ==> !Above(q, to)
      case Remove(path) => path != [] && (path in files || path in dirs)
  {
    var plan := [op];
    assert plan[..0] == [] && plan[0] == op;
    NeededAbove(op, files);
    assert StagedDirs(plan, dirs) == dirs + (if op.Write? then Needed(op) else {});
    assert Stages(plan, files, dirs, 1) <==> Stageable(plan, files, dirs, 0);
    assert Works(plan, files, StagedDirs(plan, dirs), 1) <==> GoesAt(plan, files, StagedDirs(plan, dirs), 0);
    hide Needed, WellFormed, Above;
  }

  lemma NeededAbove(op: Operation, files: Files)
    ensures match op
      case Mkdir(path) => Needed(op) !! files.Keys <==> forall q :: q in files ==> q != path && !Above(q, path)
      case Write(path, _, _) =>
        && (path in Needed(op) <==> path == [])
        && (path != [] ==> (Needed(op) !! files.Keys <==> forall q :: q in files ==> !Above(q, path)))
      case Move(_, to) => to != [] ==> (Needed(op) !! files.Keys <==> forall q :: q in files ==> !Above(q, to))
      case Remove(_) => Needed(op) == {}
  {
    match op
    case Mkdir(path) =>
      forall q ensures q in Needed(op) <==> q == path || Above(q, path) {
        InPrefixes(q, path);
      }
    case Write(path, _, _) => PrefixesOfParent(path);
    case Move(_, to) => PrefixesOfParent(to);
    case Remove(_) =>
  }

  lemma PrefixesOfParent(path: Path)
    ensures path in Prefixes(Parent(path)) <==> path == []
    ensures path != [] ==> forall q :: q in Prefixes(Parent(path)) <==> Above(q, path)
  {
    InPrefixes(path, Parent(path));
    forall q | path != [] ensures q in Prefixes(Parent(path)) <==> Above(q, path) {
      InPrefixes(q, Parent(path));
      if Above(q, path) {
        AboveParent(q, path);
      } else if Above(q, Parent(path)) {
        AboveTwice(q, Parent(path), path);
      }
    }
  }

  /** A write that may not overwrite commits over no file, neither one that was there nor one that the plan put there. */
  lemma NeverOverwrites(plan: seq<Operation>, files: Files, dirs: set<Path>, k: nat)
    requires Performable(plan, files, dirs) && k < |plan| && plan[k].Write? && !plan[k].overwrite
    ensures plan[k].path !in files && plan[k].path !in PlanEffect(plan[..k], files)
  {
    hide Needed, PlanEffect, PlanDirs, StagedDirs;
    assert Admitted(plan[k], files, dirs);
    assert GoesAt(plan, files, StagedDirs(plan, dirs), k);
  }

  /** New directories and writes, no two writes of one target. */
  predicate Additions(plan: seq<Operation>) {
    && (forall k :: 0 <= k < |plan| ==> plan[k].Mkdir? || plan[k].Write?)
    && (forall j, k :: 0 <= j < k < |plan| && plan[j].Write? && plan[k].Write? ==> plan[j].path != plan[k].path)
  }

  /** No file is where `op` needs a directory, and what it writes replaces a file only if it may, and no directory. */
  predicate FitsAlone(op: Operation, files: Files, dirs: set<Path>) {
    && Needed(op) !! files.Keys
    && (op.Write? ==> op.path !in dirs && (op.path in files ==> op.overwrite))
  }

  /** Each operation fits, and no write targets a directory that the plan needs. */
  predicate Fits(plan: seq<Operation>, files: Files, dirs: set<Path>) {
    && (forall k :: 0 <= k < |plan| ==> FitsAlone(plan[k], files, dirs))
    && (forall j, k :: 0 <= j < |plan| && 0 <= k < |plan| && plan[k].Write? ==> plan[k].path !in Needed(plan[j]))
  }

  /** One of the first `n` operations writes `q`. */
  predicate Targeted(plan: seq<Operation>, n: nat, q: Path)
    requires n <= |plan|
  {
    exists k :: 0 <= k < n && plan[k].Write? && plan[k].path == q
  }

  /** Staging makes the directories of the writes so far, and no others. */
  lemma {:induction false} StagedAre(plan: seq<Operation>, dirs: set<Path>, n: nat)
    requires n <= |plan|
    ensures dirs <= StagedDirs(plan[..n], dirs)
    ensures forall j :: 0 <= j < n && plan[j].Write? ==> Needed(plan[j]) <= StagedDirs(plan[..n], dirs)
    ensures forall q :: q in StagedDirs(plan[..n], dirs) ==> q in dirs || exists j :: 0 <= j < n && plan[j].Write? && q in Needed(plan[j])
  {
    hide Needed;
    if n > 0 {
      StagedAre(plan, dirs, n - 1);
      assert plan[..n][..n - 1] == plan[..n - 1];
    }
  }

  /** The directories along a plan of additions. */
  lemma {:induction false} AddedDirs(plan: seq<Operation>, dirs: set<Path>, n: nat)
    requires Additions(plan) && n <= |plan|
    ensures dirs <= PlanDirs(plan[..n], dirs)
    ensures forall j :: 0 <= j < n ==> Needed(plan[j]) <= PlanDirs(plan[..n], dirs)
    ensures forall q :: q in PlanDirs(plan[..n], dirs) ==> q in dirs || exists j :: 0 <= j < n && q in Needed(plan[j])
  {
    hide Needed;
    if n > 0 {
      AddedDirs(plan, dirs, n - 1);
      assert plan[..n][..n - 1] == plan[..n - 1];
    }
  }

  /** Additions that fit leave every target written, and every other file as it was. */
  lemma {:induction false} AdditionsLand(plan: seq<Operation>, files: Files, dirs: set<Path>, n: nat)
    requires WellFormed(files, dirs) && Additions(plan) && Fits(plan, files, dirs) && n <= |plan|
    ensures forall k :: 0 <= k < n && plan[k].Write? ==>
      plan[k].path in PlanEffect(plan[..n], files) && PlanEffect(plan[..n], files)[plan[k].path] == plan[k].content
    ensures forall q :: !Targeted(plan, n, q) ==>
      (q in PlanEffect(plan[..n], files) <==> q in files) && (q in files ==> PlanEffect(plan[..n], files)[q] == files[q])
  {
    if n > 0 {
      var last := plan[n - 1];
      AdditionsLand(plan, files, dirs, n - 1);
      assert plan[..n][..n - 1] == plan[..n - 1];
      hide PlanEffect, WellFormed;
      var so_far := PlanEffect(plan[..n - 1], files);
      if last.Write? {
        forall q | q in so_far && q != last.path ensures !(last.path <= q) {
          PrefixIsAbove(last.path, q);
          NothingUnder(plan, files, dirs, n - 1, q);
        }
      }
    }
  }

  lemma NothingUnder(plan: seq<Operation>, files: Files, dirs: set<Path>, k: nat, q: Path)
    requires WellFormed(files, dirs) && Fits(plan, files, dirs) && k < |plan| && plan[k].Write?
    requires q in files || Targeted(plan, |plan|, q)
    ensures !Above(plan[k].path, q)
  {
    if Above(plan[k].path, q) {
      if q !in files {
        var j :| 0 <= j < |plan| && plan[j].Write? && plan[j].path == q;
        AboveParent(plan[k].path, q);
        InPrefixes(plan[k].path, Parent(q));
      }
      assert false;
    }
  }

  lemma AdditionGoes(plan: seq<Operation>, files: Files, dirs: set<Path>, k: nat)
    requires WellFormed(files, dirs) && Additions(plan) && Fits(plan, files, dirs) && k < |plan|
    ensures Stageable(plan, files, dirs, k) && GoesAt(plan, files, StagedDirs(plan, dirs), k)
  {
    var all := StagedDirs(plan, dirs);
    assert plan[..|plan|] == plan;
    StagedAre(plan, dirs, |plan|);
    StagedAre(plan, dirs, k);
    AddedDirs(plan, all, k);
    AdditionsLand(plan, files, dirs, k);
    hide Needed, WellFormed, StagedDirs, PlanDirs, PlanEffect;
    forall q | q in PlanEffect(plan[..k], files) ensures q !in Needed(plan[k]) {
      if q !in files {
        assert Targeted(plan, k, q);
      }
    }
    assert FitsAlone(plan[k], files, dirs);
  }

  lemma AdditionFits(plan: seq<Operation>, files: Files, dirs: set<Path>, k: nat)
    requires WellFormed(files, dirs) && Additions(plan) && Performable(plan, files, dirs) && k < |plan|
    ensures FitsAlone(plan[k], files, dirs)
  {
    assert Admitted(plan[k], files, dirs);
    forall j | 0 <= j < k ensures plan[..k][j].Mkdir? || (plan[..k][j].Write? && plan[..k][j].path !in dirs) {
      assert Admitted(plan[j], files, dirs);
    }
    OriginalsKept(plan[..k], files, dirs);
    hide Needed, WellFormed, PlanDirs, PlanEffect;
    assert GoesAt(plan, files, StagedDirs(plan, dirs), k);
  }

  /** A file once written stays to the end of a plan that commits. */
  lemma {:induction false} WrittenKept(plan: seq<Operation>, files: Files, dirs: set<Path>, k: nat, n: nat)
    requires Additions(plan) && Performable(plan, files, dirs) && k < n <= |plan| && plan[k].Write?
    ensures plan[k].path in PlanEffect(plan[..n], files)
    decreases n
  {
    var last := plan[n - 1];
    assert plan[..n][..n - 1] == plan[..n - 1];
    if k < n - 1 {
      WrittenKept(plan, files, dirs, k, n - 1);
      if last.Write? && last.path <= plan[k].path {
        PrefixIsAbove(last.path, plan[k].path);
        AboveParent(last.path, plan[k].path);
        InPrefixes(last.path, Parent(plan[k].path));
        WritesApart(plan, files, dirs, k, n - 1);
      }
    }
    hide PlanEffect;
  }

  /** No write targets a directory that another write needs. */
  lemma WritesApart(plan: seq<Operation>, files: Files, dirs: set<Path>, j: nat, k: nat)
    requires Additions(plan) && Performable(plan, files, dirs) && j < |plan| && k < |plan| && plan[j].Write? && plan[k].Write?
    ensures plan[k].path !in Needed(plan[j])
  {
    assert plan[..|plan|] == plan;
    StagedAre(plan, dirs, |plan|);
    AddedDirs(plan, StagedDirs(plan, dirs), k);
    hide Needed, PlanDirs, PlanEffect, StagedDirs;
    assert GoesAt(plan, files, StagedDirs(plan, dirs), k);
  }

  lemma TargetsApart(plan: seq<Operation>, files: Files, dirs: set<Path>, j: nat, k: nat)
    requires Additions(plan) && Performable(plan, files, dirs) && j < |plan| && k < |plan| && plan[k].Write?
    ensures plan[k].path !in Needed(plan[j])
  {
    if plan[j].Write? {
      WritesApart(plan, files, dirs, j, k);
    } else if j < k {
      AddedDirs(plan, StagedDirs(plan, dirs), k);
      hide Needed, PlanDirs, PlanEffect, StagedDirs;
      assert GoesAt(plan, files, StagedDirs(plan, dirs), k);
    } else {
      WrittenKept(plan, files, dirs, k, j);
      hide Needed, PlanDirs, PlanEffect, StagedDirs;
      assert GoesAt(plan, files, StagedDirs(plan, dirs), j);
    }
  }

  /**
   A plan of new directories and writes of different targets commits, in whatever order
   they come, exactly when each of its operations fits the tree and no write targets a
   directory that another needs.
   */
  lemma AdditionsCommit(plan: seq<Operation>, files: Files, dirs: set<Path>)
    requires WellFormed(files, dirs) && Additions(plan)
    ensures Performable(plan, files, dirs) <==> Fits(plan, files, dirs)
  {
    hide Needed, WellFormed;
    if Fits(plan, files, dirs) {
      forall k | 0 <= k < |plan| ensures Stageable(plan, files, dirs, k) && GoesAt(plan, files, StagedDirs(plan, dirs), k) {
        AdditionGoes(plan, files, dirs, k);
      }
    }
    if Performable(plan, files, dirs) {
      forall k | 0 <= k < |plan| ensures FitsAlone(plan[k], files, dirs) {
        AdditionFits(plan, files, dirs, k);
      }
      forall j, k | 0 <= j < |plan| && 0 <= k < |plan| && plan[k].Write? ensures plan[k].path !in Needed(plan[j]) {
        TargetsApart(plan, files, dirs, j, k);
      }
    }
  }

  // ----- two runs -----

  /** The file `f` is moved to `g`, a directory is made in its place, and the file `h` is removed twice. */
  function Replaced(f: Name, g: Name, h: Name): seq<Operation> {
    [Move([f], [g]), Mkdir([f]), Remove([h]), Remove([h])]
  }

  function ReplacedSnaps(f: Name, g: Name, h: Name, t: Name, kept: Content, other: Content): seq<Snap> {
    [ Snap(map[[f] := kept, [h] := other], []), Snap(map[[g] := kept, [h] := other], []),
      Snap(map[[g] := kept, [h] := other], []), Snap(map[[g] := kept, [t] := other], [[t]]) ]
  }

  function ReplacedTrees(f: Name): seq<set<Path>> {
    [{[]}, {[]}, {[], [f]}, {[], [f]}]
  }

  function ReplacedUndo(f: Name, g: Name, h: Name): seq<Undo> {
    [UndoMove([f], [g], true, []), UndoMkdir([[f]]), UndoRemove([h], Some(0))]
  }

  lemma RootPrefixes(n: Name)
    ensures Prefixes([]) == {[]} && Prefixes([n]) == {[], [n]} && Parent([n]) == []
  {
    forall q ensures (q in Prefixes([]) <==> q == []) && (q in Prefixes([n]) <==> q == [] || q == [n]) {
      InPrefixes(q, []);
      InPrefixes(q, [n]);
    }
  }

  lemma ReplacedHistory(f: Name, g: Name, h: Name, t: Name, kept: Content, other: Content)
    requires f != g && f != h && g != h && f != t && g != t && h != t && t.Transaction?
    ensures History(Replaced(f, g, h), map[], ReplacedUndo(f, g, h), ReplacedSnaps(f, g, h, t, kept, other), 3)
  {
    hide Rename;
    var snaps := ReplacedSnaps(f, g, h, t, kept, other);
    RenameTwo([f], kept, [h], other, [f], [g]);
    RenameTwo([g], kept, [h], other, [h], [t]);
    RenamedWhole([f], [g]);
    RenamedWhole([h], [t]);
    assert Renamed([h], [f], [g]) == [h] && Renamed([g], [h], [t]) == [g];
    assert Moved(snaps[0], [f], [g]) == snaps[1];
    assert Parked(snaps[2], [h], [t]) == snaps[3];
  }

  lemma ReplacedRooted(f: Name, g: Name, h: Name, t: Name, kept: Content, other: Content)
    requires f != g && f != h && g != h && f != t && g != t && h != t
    ensures Rooted(Replaced(f, g, h), ReplacedUndo(f, g, h), ReplacedSnaps(f, g, h, t, kept, other), ReplacedTrees(f), 3)
  {
    var plan, snaps, trees, undo := Replaced(f, g, h), ReplacedSnaps(f, g, h, t, kept, other), ReplacedTrees(f), ReplacedUndo(f, g, h);
    ReplacedForms(f, g, h, t, kept, other);
    ReplacedSteps(f, g, h, t, kept, other);
    hide WellFormed, DirDone, Replaced, ReplacedSnaps, ReplacedTrees, ReplacedUndo;
    assert WellFormed(snaps[0].files, trees[0]) && WellFormed(snaps[1].files, trees[1]);
    assert WellFormed(snaps[2].files, trees[2]) && WellFormed(snaps[3].files, trees[3]);
  }

  lemma RootForm(files: Files)
    requires forall p :: p in files ==> |p| == 1
    ensures WellFormed(files, {[]})
    ensures forall n: Name :: [n] !in files ==> WellFormed(files, {[], [n]})
  {
  }

  lemma ReplacedForms(f: Name, g: Name, h: Name, t: Name, kept: Content, other: Content)
    requires f != g && f != h && g != h && f != t && g != t && h != t
    ensures var snaps, trees := ReplacedSnaps(f, g, h, t, kept, other), ReplacedTrees(f);
      && |snaps| == |trees| == 4 && forall j | 0 <= j < 4 :: WellFormed(snaps[j].files, trees[j])
  {
    RootForm(map[[f] := kept, [h] := other]);
    RootForm(map[[g] := kept, [h] := other]);
    RootForm(map[[g] := kept, [t] := other]);
    hide WellFormed;
  }

  lemma ReplacedSteps(f: Name, g: Name, h: Name, t: Name, kept: Content, other: Content)
    requires f != g && f != h && g != h && f != t && g != t && h != t
    ensures var plan, snaps, trees, undo := Replaced(f, g, h), ReplacedSnaps(f, g, h, t, kept, other), ReplacedTrees(f), ReplacedUndo(f, g, h);
      && |plan| == 4 && |undo| == 3 && |snaps| == |trees| == 4
      && DirDone(plan[0], undo[0], snaps[0], trees[0], snaps[1], trees[1])
      && DirDone(plan[1], undo[1], snaps[1], trees[1], snaps[2], trees[2])
      && DirDone(plan[2], undo[2], snaps[2], trees[2], snaps[3], trees[3])
  {
    RootPrefixes(f);
    RootPrefixes(g);
    RootPrefixes(h);
    RootPrefixes(t);
    hide Prefixes, Images;
    Apart([f], [h]);
    NothingMoves({[]}, [f], [g]);
    NothingMoves({[], [f]}, [h], [t]);
    var root: set<Path> := {[]};
    assert root + root == root && {[], [f]} - root == {[f]} && root + {[], [f]} == {[], [f]};
    assert Chain([], root - root);
    assert Chain([[f]], {[], [f]} - root);
  }

  /** What the plan makes of the original files, as a caller computes it. */
  lemma ReplacedTraces(f: Name, g: Name, h: Name, kept: Content, other: Content)
    requires f != g && f != h && g != h
    ensures var plan, files := Replaced(f, g, h), map[[f] := kept, [h] := other];
      && Lost(plan, 3) == {} && Built(plan, files, {[]}, 3) == {[f]} && Obstructed(plan, files, {[]}, 3, 3)
  {
    var plan, files: Files, root: set<Path> := Replaced(f, g, h), map[[f] := kept, [h] := other], {[]};
    RootPrefixes(f);
    RootPrefixes(g);
    hide Prefixes, Rename, Images;
    RenameTwo([f], kept, [h], other, [f], [g]);
    RenamedWhole([f], [g]);
    NothingMoves(root, [f], [g]);
    assert Renamed([h], [f], [g]) == [h];
    assert plan[..0] == [];
    PlanNext(plan, 0, files, root);
    assert root + Needed(plan[0]) == root && PlanDirs([], root) == root;
    assert PlanEffect(plan[..1], files) == map[[g] := kept, [h] := other] && PlanDirs(plan[..1], root) == root;
    assert AddsAt(plan, files, root, 0) == {} && AddsAt(plan, files, root, 2) == {};
    assert {[], [f]} - root == {[f]};
    assert Needed(plan[1]) == {[], [f]};
    assert AddsAt(plan, files, root, 1) == Adds(plan[1], map[[g] := kept, [h] := other], root) == {[f]};
    assert Built(plan, files, root, 1) == {};
    assert Built(plan, files, root, 2) == {[f]};
    assert Built(plan, files, root, 3) == {[f]};
    assert LeftAt(plan, files, root, 3, 3) == {} && LeftAt(plan, files, root, 2, 3) == {} && LeftAt(plan, files, root, 1, 3) == {[f]};
    assert PlanEffect(plan[..0], files) == files;
    assert Blocked([f], true, {[f]});
    assert BlockedAt(plan, files, root, 0, 3);
  }

  /**
   A plan without any write that is not undone in full: its second removal of `h`
   throws, and the three operations before it are undone. Where `rm` removes empty
   directories all of the undoing succeeds, and then the clean-up of created
   directories deletes the original file `f`, back at the path it has on record. Where
   `rm` refuses directories the file cannot come back to `f`.
   */
  lemma RollbackDeletesReplacedFile(f: Name, g: Name, h: Name, t: Name, kept: Content, other: Content)
    requires f != g && f != h && g != h && f.Plain? && g.Plain? && h.Plain? && t.Transaction?
    ensures var plan, files := Replaced(f, g, h), map[[f] := kept, [h] := other];
      var snaps, trees, undo := ReplacedSnaps(f, g, h, t, kept, other), ReplacedTrees(f), ReplacedUndo(f, g, h);
      && OrdinaryPlan(plan) && History(plan, map[], undo, snaps, 3) && Rooted(plan, undo, snaps, trees, 3)
      && snaps[0] == Snap(files, []) && trees[0] == {[]} && [h] !in snaps[3].files && [h] !in trees[3]
      && Lost(plan, 3) == {} && Built(plan, files, {[]}, 3) == {[f]} && files - Lost(plan, 3) - Built(plan, files, {[]}, 3) == map[[h] := other]
      && Obstructed(plan, files, {[]}, 3, 3)
  {
    hide History, Rooted, Lost, Built, Obstructed;
    ReplacedHistory(f, g, h, t, kept, other);
    ReplacedRooted(f, g, h, t, kept, other);
    ReplacedTraces(f, g, h, kept, other);
  }

  /** The same with `f` removed instead of moved: where its backup stands when the plan stops. */
  function RemovedWorld(f: Name, s: Name, t: Name, kept: Content, other: Content): World {
    World(map[[s] := kept, [t] := other], {[], [f]}, [Artifact([s], false, true, true), Artifact([t], false, true, true)], false)
  }

  lemma SecondBack(f: Name, h: Name, s: Name, t: Name, kept: Content, other: Content)
    requires f != h && s != t && f != s && h != s && t != f && t != h
    ensures var r := UndoneBy(RemovedWorld(f, s, t, kept, other), UndoRemove([h], Some(1)), false);
      && r.files == map[[s] := kept, [h] := other] && r.dirs == {[], [f]} && !r.stuck
      && |r.artifacts| == 2 && r.artifacts[0] == Artifact([s], false, true, true)
  {
    var w := RemovedWorld(f, s, t, kept, other);
    RenameTwo([s], kept, [t], other, [t], [h]);
    RenamedWhole([t], [h]);
    RootPrefixes(h);
    Apart([f], [t]);
    Apart([s], [t]);
    Apart([t], [h]);
    NothingMoves(w.dirs, [t], [h]);
    hide Rename, Images, Prefixes;
    assert Renamed([s], [t], [h]) == [s];
    assert Without(w.files, [h]) == w.files && w.dirs - {[h]} == w.dirs;
    assert CanReturn(w, [t], [h]);
  }

  /** A directory `rm` refuses, in the way of the file that stood there. */
  lemma FirstStuck(f: Name, s: Name, w: World)
    requires [f] in w.dirs && [f] !in w.files && [s] in w.files && |w.artifacts| > 0 && w.artifacts[0].path == [s]
    ensures UndoneBy(w, UndoMkdir([[f]]), false) == w
    ensures UndoneBy(w, UndoRemove([f], Some(0)), false) == w.(stuck := true)
  {
    SweepRefused(w, [[f]]);
  }

  /**
   There a stuck rollback costs the file its last copy: `rm` refuses directories, so
   the directory in place of `f` stays, the backup `s` cannot return, and the clean-up
   of artifacts still owns it.
   */
  lemma StuckRollbackDeletesBackup(f: Name, h: Name, s: Name, t: Name, kept: Content, other: Content)
    requires f != h && s != t && f.Plain? && h.Plain? && s.Transaction? && t.Transaction?
    ensures var r := Unwound(RemovedWorld(f, s, t, kept, other), [UndoRemove([f], Some(0)), UndoMkdir([[f]]), UndoRemove([h], Some(1))], false);
      && r.stuck && r.files == map[[s] := kept, [h] := other] && RemovedBy(r.artifacts, |r.artifacts|, false, [s])
  {
    var w := RemovedWorld(f, s, t, kept, other);
    var undo := [UndoRemove([f], Some(0)), UndoMkdir([[f]]), UndoRemove([h], Some(1))];
    assert undo[..2] == [undo[0], undo[1]] && undo[..2][..1] == [undo[0]] && [undo[0]][..0] == [];
    SecondBack(f, h, s, t, kept, other);
    var back := UndoneBy(w, undo[2], false);
    FirstStuck(f, s, back);
    hide UndoneBy, RemovedWorld;
    var r := back.(stuck := true);
    assert Unwound(r, [], false) == r;
    assert Unwound(back, [undo[0]], false) == r;
    assert Unwound(back, [undo[0], undo[1]], false) == r;
    assert Unwound(w, undo, false) == r;
    assert Removes(back.artifacts[0], false, [s]);
  }
}

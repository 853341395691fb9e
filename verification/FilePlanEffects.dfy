/**
 What a file plan amounts to: the tree a committed plan leaves, and the tree a
 rolled-back plan leaves (packages/cli/src/file-plan.ts).
 */
module FilePlanEffects {
  import opened Wrappers
  import opened FileTree
  import opened FilePlanHistory

  // ----- the intended tree -----

  /** The plan's own meaning, free of stages and backups. A write replaces what its path held. */
  function Effect(op: Operation, files: Files): Files {
    match op
    case Mkdir(_) => files
    case Write(path, content, _) => Without(files, path)[path := content]
    case Move(from, to) => if Free(files, to) then Rename(files, from, to) else files
    case Remove(path) => Without(files, path)
  }

  function PlanEffect(plan: seq<Operation>, files: Files): Files {
    if plan == [] then files else Effect(plan[|plan| - 1], PlanEffect(plan[..|plan| - 1], files))
  }

  // ----- what stages and backups hide -----

  /** `q` belongs to a stage not yet taken, or to a backup. */
  predicate Hidden(s: Snap, taken: set<nat>, q: Path) {
    exists i :: 0 <= i < |s.paths| && i !in taken && s.paths[i] <= q
  }

  function Visible(s: Snap, taken: set<nat>): Files {
    map q | q in s.files && !Hidden(s, taken, q) :: s.files[q]
  }

  predicate Marked(s: Snap, taken: set<nat>) {
    forall i :: 0 <= i < |s.paths| && i !in taken ==> !Ordinary(s.paths[i])
  }

  lemma OrdinaryIsVisible(s: Snap, taken: set<nat>, p: Path)
    requires Marked(s, taken) && Ordinary(p)
    ensures !Hidden(s, taken, p)
  {
    forall i | 0 <= i < |s.paths| && i !in taken ensures !(s.paths[i] <= p) {
      OrdinaryPrefix(s.paths[i], p);
    }
  }

  /** A rename of ordinary paths moves what is hidden along with what is not. */
  lemma HiddenMoves(s: Snap, from: Path, to: Path, taken: set<nat>, q: Path)
    requires CanMove(s, from, to) && Ordinary(from) && Marked(s, taken) && !(to <= q)
    requires forall i :: 0 <= i < |s.paths| && i !in taken ==> !(s.paths[i] <= to)
    ensures Hidden(Moved(s, from, to), taken, Renamed(q, from, to)) <==> Hidden(s, taken, q)
  {
    forall i | 0 <= i < |s.paths| && i !in taken
      ensures Renamed(s.paths[i], from, to) <= Renamed(q, from, to) <==> s.paths[i] <= q
    {
      OrdinaryPrefix(s.paths[i], from);
      PrefixMoves(s.paths[i], q, from, to);
    }
  }

  lemma OrdinaryPrefix(p: Path, from: Path)
    requires !Ordinary(p) && Ordinary(from)
    ensures !(p <= from)
  {
    var at :| 0 <= at < |p| && !p[at].Plain?;
  }

  lemma PrefixMoves(p: Path, q: Path, from: Path, to: Path)
    requires !(p <= from) && !(to <= p) && !(to <= q) && !(p <= to)
    ensures Renamed(p, from, to) <= Renamed(q, from, to) <==> p <= q
  {
    if from <= p && from <= q {
      assert p == from + p[|from|..] && q == from + q[|from|..];
      PrefixJoin(to, p[|from|..], q[|from|..]);
      PrefixJoin(from, p[|from|..], q[|from|..]);
    } else if from <= q {
      if p <= q {
        Comparable(p, from, q);
      }
      if p <= Renamed(q, from, to) {
        Comparable(p, to, to + q[|from|..]);
      }
    } else if from <= p {
      assert p <= q ==> from <= q;
    }
  }

  lemma Comparable(a: Path, b: Path, c: Path)
    requires a <= c && b <= c
    ensures a <= b || b <= a
  {
    assert |a| <= |b| ==> a == b[..|a|];
    assert |b| <= |a| ==> b == a[..|b|];
  }

  lemma PrefixJoin(a: Path, x: Path, y: Path)
    ensures a + x <= a + y <==> x <= y
  {
    if a + x <= a + y {
      forall i | 0 <= i < |x| ensures x[i] == y[i] {
        assert (a + x)[|a| + i] == (a + y)[|a| + i];
      }
      assert x == y[..|x|];
    } else if x <= y {
      assert false;
    }
  }

  /** Moving ordinary paths moves the visible tree. */
  lemma VisibleMoved(s: Snap, from: Path, to: Path, taken: set<nat>)
    requires CanMove(s, from, to) && Ordinary(from) && Marked(s, taken)
    requires forall i :: 0 <= i < |s.paths| && i !in taken ==> !(s.paths[i] <= to)
    ensures Free(Visible(s, taken), to)
    ensures Visible(Moved(s, from, to), taken) == Rename(Visible(s, taken), from, to)
  {
    var t := Moved(s, from, to);
    RenameKeys(s.files, from, to);
    RenameKeys(Visible(s, taken), from, to);
    forall q | q in s.files ensures Hidden(t, taken, Renamed(q, from, to)) <==> Hidden(s, taken, q) {
      HiddenMoves(s, from, to, taken, q);
    }
    hide Hidden, CanMove, Marked;
    forall q | q in t.files ensures Renamed(q, to, from) in s.files && (Hidden(t, taken, q) <==> Hidden(s, taken, Renamed(q, to, from))) {
      assert Renamed(Renamed(q, to, from), from, to) == q;
    }
  }

  lemma WithoutMoved(files: Files, path: Path, backup: Path)
    requires Free(files, backup) && !(path <= backup)
    ensures Without(Rename(files, path, backup), backup) == Without(files, path)
  {
    RenameKeys(files, path, backup);
    forall q | q in Without(Rename(files, path, backup), backup) ensures q in files && !(path <= q) {
      assert Renamed(q, backup, path) == q;
    }
    forall q | q in Without(files, path) ensures q in Rename(files, path, backup) && Rename(files, path, backup)[q] == files[q] {
      assert Renamed(q, path, backup) == q;
    }
  }

  lemma PrefixCut(p: Path, q: Path)
    requires |q| > 0
    ensures p <= q ==> p == q || p <= q[..|q| - 1]
  {
  }

  /** No hidden path lies above a fresh backup. */
  lemma NotAbove(s: Snap, taken: set<nat>, backup: Path)
    requires Marked(s, taken) && TransactionPath(backup)
    requires forall i :: 0 <= i < |s.paths| ==> !(backup <= s.paths[i])
    ensures forall i :: 0 <= i < |s.paths| && i !in taken ==> !(s.paths[i] <= backup)
  {
    forall i | 0 <= i < |s.paths| && i !in taken ensures !(s.paths[i] <= backup) {
      OrdinaryPrefix(s.paths[i], backup[..|backup| - 1]);
      PrefixCut(s.paths[i], backup);
    }
  }

  /** Setting a path aside hides it. */
  lemma VisibleParked(s: Snap, path: Path, backup: Path, taken: set<nat>)
    requires CanMove(s, path, backup) && Ordinary(path) && TransactionPath(backup) && Marked(s, taken) && |s.paths| !in taken
    ensures Visible(Parked(s, path, backup), taken) == Without(Visible(s, taken), path)
    ensures Marked(Parked(s, path, backup), taken)
  {
    NotAbove(s, taken, backup);
    VisibleMoved(s, path, backup, taken);
    WithoutMoved(Visible(s, taken), path, backup);
    MarkedMoves(s, path, backup, taken);
    var t, u := Moved(s, path, backup), Parked(s, path, backup);
    forall q ensures Hidden(u, taken, q) <==> Hidden(t, taken, q) || backup <= q {
      if Hidden(t, taken, q) {
        var i :| 0 <= i < |t.paths| && i !in taken && t.paths[i] <= q;
        assert u.paths[i] <= q;
      }
      assert u.paths[|s.paths|] == backup;
    }
    hide Hidden, Marked, CanMove, Rename;
    assert Visible(u, taken) == Without(Visible(t, taken), backup);
  }

  lemma MarkedMoves(s: Snap, from: Path, to: Path, taken: set<nat>)
    requires Free(s.files, to) && Marked(s, taken) && Ordinary(from)
    ensures Marked(Moved(s, from, to), taken)
  {
    forall i | 0 <= i < |s.paths| && i !in taken ensures !Ordinary(Renamed(s.paths[i], from, to)) {
      StillMarked(s.paths[i], from, to);
    }
  }

  /** Nothing lies under a staged file. */
  predicate Leaf(files: Files, p: Path) {
    forall q :: q in files && p <= q ==> q == p
  }

  ghost predicate Leaves(s: Snap, plan: seq<Operation>, staged: map<nat, nat>, next: nat) {
    forall k | next <= k < |plan| && plan[k].Write? :: StageOf(staged, k) < |s.paths| && Leaf(s.files, s.paths[StageOf(staged, k)])
  }

  lemma LeafMoves(s: Snap, from: Path, to: Path, p: Path)
    requires CanMove(s, from, to) && Leaf(s.files, p) && !(p <= from) && !(to <= p) && !(p <= to)
    ensures Leaf(Rename(s.files, from, to), Renamed(p, from, to))
  {
    RenameKeys(s.files, from, to);
    forall q | q in Rename(s.files, from, to) && Renamed(p, from, to) <= q ensures q == Renamed(p, from, to) {
      PrefixMoves(p, Renamed(q, to, from), from, to);
    }
  }

  lemma LeavesMove(s: Snap, from: Path, to: Path, plan: seq<Operation>, staged: map<nat, nat>, next: nat, taken: set<nat>)
    requires CanMove(s, from, to) && Ordinary(from) && Staged(s, plan, staged, next) && Leaves(s, plan, staged, next)
    requires Marked(s, taken) && forall k | next <= k < |plan| && plan[k].Write? :: StageOf(staged, k) !in taken
    requires forall i :: 0 <= i < |s.paths| && i !in taken ==> !(s.paths[i] <= to)
    ensures Leaves(Moved(s, from, to), plan, staged, next)
  {
    forall k | next <= k < |plan| && plan[k].Write?
      ensures Leaf(Rename(s.files, from, to), Renamed(s.paths[StageOf(staged, k)], from, to))
    {
      OrdinaryPrefix(s.paths[StageOf(staged, k)], from);
      LeafMoves(s, from, to, s.paths[StageOf(staged, k)]);
    }
  }

  /** A staged file at its target shows there, and nowhere else. */
  lemma VisibleInstalled(s: Snap, stage: nat, path: Path, taken: set<nat>)
    requires CanInstall(s, stage, path) && Ordinary(path) && Marked(s, taken) && stage !in taken
    requires Leaf(s.files, s.paths[stage])
    ensures Visible(Installed(s, stage, path), taken + {stage}) == Visible(s, taken)[path := s.files[s.paths[stage]]]
    ensures Marked(Installed(s, stage, path), taken + {stage})
  {
    var t := Installed(s, stage, path);
    OrdinaryIsVisible(t, taken + {stage}, path);
    forall q | q in s.files && q != s.paths[stage] ensures Hidden(t, taken + {stage}, q) <==> Hidden(s, taken, q) {
      if Hidden(s, taken, q) {
        var i :| 0 <= i < |s.paths| && i !in taken && s.paths[i] <= q;
        assert t.paths[i] <= q;
      }
    }
    assert Hidden(s, taken, s.paths[stage]);
  }

  // ----- a whole plan -----

  /** After `next` operations the visible tree is the plan's effect so far. */
  ghost predicate OnCourse(s: Snap, plan: seq<Operation>, staged: map<nat, nat>, next: nat, base: Files)
    requires next <= |plan|
  {
    var taken := Taken(plan, staged, 0, next);
    && Staged(s, plan, staged, next) && Leaves(s, plan, staged, next) && Marked(s, taken)
    && Visible(s, taken) == PlanEffect(plan[..next], base)
  }

  lemma StagesApart(plan: seq<Operation>, staged: map<nat, nat>, next: nat, stages: nat)
    requires next < |plan| && Indexed(plan, staged, stages)
    ensures forall k | next <= k < |plan| && plan[k].Write? :: StageOf(staged, k) !in Taken(plan, staged, 0, next)
    ensures forall i :: i in Taken(plan, staged, 0, next) ==> i < stages
    ensures Taken(plan, staged, 0, next + 1) == Taken(plan, staged, 0, next) + (if plan[next].Write? then {StageOf(staged, next)} else {})
    ensures !plan[next].Write? ==> Taken(plan, staged, 0, next + 1) == Taken(plan, staged, 0, next)
    ensures plan[..next + 1][..next] == plan[..next] && plan[..next + 1][next] == plan[next]
  {
  }

  lemma MoveOnCourse(s: Snap, t: Snap, u: Undo, plan: seq<Operation>, staged: map<nat, nat>, next: nat, stages: nat, base: Files)
    requires next < |plan| && Indexed(plan, staged, stages) && stages <= |s.paths| && OrdinaryPlan(plan)
    requires plan[next].Move? && MoveDone(plan[next], u, s, t, true) && OnCourse(s, plan, staged, next, base)
    ensures OnCourse(t, plan, staged, next + 1, base)
  {
    assert OrdinaryOperation(plan[next]);
    hide Staged, Leaves, Marked, Visible, Taken, CanMove, Rename, Free, Indexed, OrdinaryPlan, Ordinary;
    StagesApart(plan, staged, next, stages);
    var from, to := plan[next].from, plan[next].to;
    MovedOnCourse(s, from, to, plan, staged, next, stages);
  }

  lemma MovedOnCourse(s: Snap, from: Path, to: Path, plan: seq<Operation>, staged: map<nat, nat>, next: nat, stages: nat)
    requires next < |plan| && Indexed(plan, staged, stages) && Ordinary(from) && Ordinary(to) && CanMove(s, from, to)
    requires var taken := Taken(plan, staged, 0, next);
      Staged(s, plan, staged, next) && Leaves(s, plan, staged, next) && Marked(s, taken)
    ensures var taken := Taken(plan, staged, 0, next);
      var t := Moved(s, from, to);
      && Staged(t, plan, staged, next + 1) && Leaves(t, plan, staged, next + 1) && Marked(t, taken)
      && Free(Visible(s, taken), to) && Visible(t, taken) == Rename(Visible(s, taken), from, to)
  {
    StagesApart(plan, staged, next, stages);
    var taken := Taken(plan, staged, 0, next);
    forall i | 0 <= i < |s.paths| && i !in taken ensures !(s.paths[i] <= to) {
      OrdinaryPrefix(s.paths[i], to);
    }
    MoveStaged(s, from, to, plan, staged, next);
    LeavesMove(s, from, to, plan, staged, next, taken);
    MarkedMoves(s, from, to, taken);
    VisibleMoved(s, from, to, taken);
    hide Marked, CanMove, Visible, Rename, Leaf;
  }

  lemma RemoveOnCourse(s: Snap, t: Snap, u: Undo, plan: seq<Operation>, staged: map<nat, nat>, next: nat, stages: nat, base: Files)
    requires next < |plan| && Indexed(plan, staged, stages) && stages <= |s.paths| && OrdinaryPlan(plan)
    requires plan[next].Remove? && RemoveDone(plan[next], u, s, t, true) && OnCourse(s, plan, staged, next, base)
    ensures OnCourse(t, plan, staged, next + 1, base)
  {
    hide Staged, Leaves, Marked, Visible, Taken, CanMove, Rename, Free, Indexed, OrdinaryPlan, Ordinary, Without, Parked;
    StagesApart(plan, staged, next, stages);
    OpIsOrdinary(plan, next);
    ParkedOnCourse(s, plan[next].path, t.paths[|s.paths|], plan, staged, next, stages);
    Onward(t, plan, staged, next);
  }

  lemma OpIsOrdinary(plan: seq<Operation>, k: nat)
    requires OrdinaryPlan(plan) && k < |plan|
    ensures OrdinaryOperation(plan[k])
  {
  }

  lemma Onward(s: Snap, plan: seq<Operation>, staged: map<nat, nat>, next: nat)
    requires Staged(s, plan, staged, next) && Leaves(s, plan, staged, next)
    ensures Staged(s, plan, staged, next + 1) && Leaves(s, plan, staged, next + 1)
  {
  }

  lemma ParkedOnCourse(s: Snap, path: Path, backup: Path, plan: seq<Operation>, staged: map<nat, nat>, next: nat, stages: nat)
    requires next < |plan| && Indexed(plan, staged, stages) && stages <= |s.paths| && Ordinary(path)
    requires CanMove(s, path, backup) && TransactionPath(backup)
    requires var taken := Taken(plan, staged, 0, next);
      Staged(s, plan, staged, next) && Leaves(s, plan, staged, next) && Marked(s, taken)
    ensures var taken := Taken(plan, staged, 0, next);
      var t := Parked(s, path, backup);
      && Staged(t, plan, staged, next) && Leaves(t, plan, staged, next) && Marked(t, taken)
      && Visible(t, taken) == Without(Visible(s, taken), path)
  {
    StagesApart(plan, staged, next, stages);
    var taken := Taken(plan, staged, 0, next);
    NotAbove(s, taken, backup);
    ParkStaged(s, path, backup, plan, staged, next);
    LeavesMove(s, path, backup, plan, staged, next, taken);
    VisibleParked(s, path, backup, taken);
    hide Marked, Staged, CanMove, Visible, Without, Rename, Leaf;
  }

  lemma WriteOnCourse(s: Snap, t: Snap, u: Undo, plan: seq<Operation>, staged: map<nat, nat>, next: nat, stages: nat, base: Files)
    requires next < |plan| && Indexed(plan, staged, stages) && stages <= |s.paths| && OrdinaryPlan(plan)
    requires plan[next].Write? && WriteDone(plan[next], StageOf(staged, next), u, s, t, true) && OnCourse(s, plan, staged, next, base)
    ensures OnCourse(t, plan, staged, next + 1, base)
  {
    StagesApart(plan, staged, next, stages);
    assert OrdinaryOperation(plan[next]);
    var path, stage, taken := plan[next].path, StageOf(staged, next), Taken(plan, staged, 0, next);
    var mid := Mid(s, path, u.backup, t);
    if u.backup.Some? {
      ParkedOnCourse(s, path, t.paths[|s.paths|], plan, staged, next, stages);
    } else {
      assert Without(Visible(s, taken), path) == Visible(s, taken);
    }
    VisibleInstalled(mid, stage, path, taken);
    InstallStaged(mid, path, plan, staged, next, stages);
    LeavesInstall(mid, path, plan, staged, next, stages);
  }

  lemma LeavesInstall(s: Snap, path: Path, plan: seq<Operation>, staged: map<nat, nat>, next: nat, stages: nat)
    requires next < |plan| && plan[next].Write? && Indexed(plan, staged, stages) && Ordinary(path)
    requires Staged(s, plan, staged, next) && Leaves(s, plan, staged, next) && CanInstall(s, StageOf(staged, next), path)
    ensures Leaves(Installed(s, StageOf(staged, next), path), plan, staged, next + 1)
  {
    forall k | next < k < |plan| && plan[k].Write?
      ensures Leaf(Installed(s, StageOf(staged, next), path).files, s.paths[StageOf(staged, k)])
    {
      OrdinaryPrefix(s.paths[StageOf(staged, k)], path);
    }
  }

  /** A plan carried out in full is on course to the end. */
  lemma {:induction false} HistoryOnCourse(plan: seq<Operation>, staged: map<nat, nat>, undo: seq<Undo>, snaps: seq<Snap>, next: nat, base: Files)
    requires History(plan, staged, undo, snaps, next) && OrdinaryPlan(plan) && Indexed(plan, staged, |snaps[0].paths|)
    requires OnCourse(snaps[0], plan, staged, 0, base)
    ensures OnCourse(snaps[next], plan, staged, next, base)
    decreases next
  {
    if next > 0 {
      HistoryPrefix(plan, staged, undo, snaps, next - 1);
      HistoryOnCourse(plan, staged, undo, snaps, next - 1, base);
      SnapsGrow(plan, staged, undo, snaps, next - 1, next - 1);
      var j := next - 1;
      hide History, OnCourse, Indexed, OrdinaryPlan, WriteDone, MoveDone, RemoveDone;
      match plan[j]
      case Mkdir(_) => MkdirOnCourse(snaps[j], plan, staged, j, |snaps[0].paths|, base);
      case Move(_, _) => MoveOnCourse(snaps[j], snaps[j + 1], undo[j], plan, staged, j, |snaps[0].paths|, base);
      case Remove(_) => RemoveOnCourse(snaps[j], snaps[j + 1], undo[j], plan, staged, j, |snaps[0].paths|, base);
      case Write(_, _, _) => WriteOnCourse(snaps[j], snaps[j + 1], undo[j], plan, staged, j, |snaps[0].paths|, base);
    }
  }

  lemma HistoryPrefix(plan: seq<Operation>, staged: map<nat, nat>, undo: seq<Undo>, snaps: seq<Snap>, next: nat)
    requires History(plan, staged, undo, snaps, next + 1)
    ensures History(plan, staged, undo, snaps, next)
    ensures OpDone(plan[next], StageOf(staged, next), undo[next], snaps[next], snaps[next + 1], true)
  {
    hide OpDone;
  }

  lemma MkdirOnCourse(s: Snap, plan: seq<Operation>, staged: map<nat, nat>, next: nat, stages: nat, base: Files)
    requires next < |plan| && plan[next].Mkdir? && Indexed(plan, staged, stages) && OnCourse(s, plan, staged, next, base)
    ensures OnCourse(s, plan, staged, next + 1, base)
  {
    hide Staged, Leaves, Marked, Visible, Indexed, Taken;
    StagesApart(plan, staged, next, stages);
    Onward(s, plan, staged, next);
  }

  // ----- the staged tree -----

  /** The original tree plus one file per artifact, each under a fresh transaction name. */
  ghost predicate StagedTree(base: Files, s: Snap) {
    && (forall q :: q in base ==> q in s.files && s.files[q] == base[q])
    && (forall q :: q in s.files ==> q in base || q in s.paths)
    && (forall i :: 0 <= i < |s.paths| ==> s.paths[i] in s.files && Free(base, s.paths[i]) && TransactionPath(s.paths[i]))
    && (forall i, j :: 0 <= i < j < |s.paths| ==> s.paths[i] != s.paths[j] && !(s.paths[i] <= s.paths[j]) && !(s.paths[j] <= s.paths[i]))
  }

  lemma OriginalsStay(base: Files, s: Snap)
    requires StagedTree(base, s)
    ensures base.Keys <= s.files.Keys
  {
  }

  lemma StagesAreLeaves(base: Files, s: Snap, plan: seq<Operation>, staged: map<nat, nat>)
    requires StagedTree(base, s) && Indexed(plan, staged, |s.paths|)
    ensures Leaves(s, plan, staged, 0)
  {
    forall k | 0 <= k < |plan| && plan[k].Write? ensures Leaf(s.files, s.paths[StageOf(staged, k)]) {
    }
  }

  lemma StagesAreHidden(base: Files, s: Snap)
    requires StagedTree(base, s)
    ensures Visible(s, {}) == base && Marked(s, {})
  {
    hide Hidden, Marked;
    forall q | q in s.files ensures Hidden(s, {}, q) <==> q !in base {
      NewIsHidden(base, s, q);
    }
    StagesAreMarked(base, s);
  }

  lemma StagesAreMarked(base: Files, s: Snap)
    requires StagedTree(base, s)
    ensures Marked(s, {})
  {
    hide Hidden, Free;
  }

  lemma NewIsHidden(base: Files, s: Snap, q: Path)
    requires StagedTree(base, s) && q in s.files
    ensures Hidden(s, {}, q) <==> q !in base
  {
    if q !in base {
      var i :| 0 <= i < |s.paths| && s.paths[i] == q;
    }
  }

  lemma StartOnCourse(base: Files, s: Snap, plan: seq<Operation>, staged: map<nat, nat>)
    requires StagedTree(base, s) && Staged(s, plan, staged, 0) && Indexed(plan, staged, |s.paths|)
    ensures OnCourse(s, plan, staged, 0, base)
  {
    assert Taken(plan, staged, 0, 0) == {};
    assert plan[..0] == [];
    StagesAreLeaves(base, s, plan, staged);
    StagesAreHidden(base, s);
    hide Staged, StagedTree, Indexed, Leaves, Marked, Visible;
  }

  lemma StageAdded(base: Files, s: Snap, stage: Path, content: Content)
    requires StagedTree(base, s) && Free(s.files, stage) && TransactionPath(stage)
    ensures StagedTree(base, Snap(s.files[stage := content], s.paths + [stage]))
    ensures forall i :: 0 <= i < |s.paths| ==> s.paths[i] != stage
  {
    assert stage <= stage;
    forall i | 0 <= i < |s.paths| ensures !(s.paths[i] <= stage) && !(stage <= s.paths[i]) {
      PrefixCut(s.paths[i], stage);
      OrdinaryPrefix(s.paths[i], stage[..|stage| - 1]);
    }
  }

  /** Artifact `i` is the stage of some write before `next`. */
  ghost predicate IsStage(plan: seq<Operation>, staged: map<nat, nat>, i: nat, next: nat) {
    exists k :: 0 <= k < next && k < |plan| && plan[k].Write? && StageOf(staged, k) == i
  }

  lemma IsStageKept(plan: seq<Operation>, a: map<nat, nat>, b: map<nat, nat>, i: nat, next: nat, next': nat)
    requires IsStage(plan, a, i, next) && next <= next' && forall k :: 0 <= k < next ==> StageOf(b, k) == StageOf(a, k)
    ensures IsStage(plan, b, i, next')
  {
    var k :| 0 <= k < next && k < |plan| && plan[k].Write? && StageOf(a, k) == i;
    assert StageOf(b, k) == i;
  }

  /** Writes before `index` are mapped to stages of their own that hold their content. */
  ghost predicate Mapped(plan: seq<Operation>, staged: map<nat, nat>, s: Snap, index: nat)
    requires index <= |plan|
  {
    && (forall k :: k in staged ==> k < index && plan[k].Write? && staged[k] < |s.paths|)
    && (forall k | 0 <= k < index && plan[k].Write? ::
          k in staged && s.paths[staged[k]] in s.files && s.files[s.paths[staged[k]]] == plan[k].content)
    && (forall k, l :: k in staged && l in staged && k != l ==> staged[k] != staged[l])
  }

  lemma MappedAdd(plan: seq<Operation>, staged: map<nat, nat>, s: Snap, index: nat, stage: Path, content: Content)
    requires index <= |plan| && Mapped(plan, staged, s, index) && stage !in s.files
    ensures Mapped(plan, staged, Snap(s.files[stage := content], s.paths + [stage]), index)
    ensures forall k :: k in staged ==> staged[k] < |s.paths|
  {
  }

  lemma MappedNext(plan: seq<Operation>, staged: map<nat, nat>, s: Snap, index: nat)
    requires index < |plan| && plan[index].Write? && Mapped(plan, staged, s, index) && |s.paths| > 0
    requires s.paths[|s.paths| - 1] in s.files && s.files[s.paths[|s.paths| - 1]] == plan[index].content
    requires forall k :: k in staged ==> staged[k] < |s.paths| - 1
    ensures Mapped(plan, staged[index := |s.paths| - 1], s, index + 1)
  {
  }

  /** Every artifact is some write's stage. */
  ghost predicate AllStages(plan: seq<Operation>, staged: map<nat, nat>, artifacts: nat, next: nat) {
    forall i :: 0 <= i < artifacts ==> IsStage(plan, staged, i, next)
  }

  lemma AllStagesNext(plan: seq<Operation>, a: map<nat, nat>, b: map<nat, nat>, artifacts: nat, next: nat, next': nat)
    requires AllStages(plan, a, artifacts, next) && next <= next' && forall k :: 0 <= k < next ==> StageOf(b, k) == StageOf(a, k)
    ensures AllStages(plan, b, artifacts, next')
  {
    forall i | 0 <= i < artifacts ensures IsStage(plan, b, i, next') {
      IsStageKept(plan, a, b, i, next, next');
    }
  }

  lemma AllStagesAdd(plan: seq<Operation>, staged: map<nat, nat>, artifacts: nat, index: nat)
    requires AllStages(plan, staged, artifacts, index) && index < |plan| && plan[index].Write?
    requires forall k :: k in staged ==> k < index
    ensures AllStages(plan, staged[index := artifacts], artifacts + 1, index + 1)
  {
    var after := staged[index := artifacts];
    AllStagesNext(plan, staged, after, artifacts, index, index + 1);
    assert StageOf(after, index) == artifacts;
  }

  lemma StageIsTaken(plan: seq<Operation>, staged: map<nat, nat>, i: nat, next: nat)
    requires IsStage(plan, staged, i, next)
    ensures i in Taken(plan, staged, 0, next)
  {
  }

  lemma MappedStaged(base: Files, s: Snap, plan: seq<Operation>, staged: map<nat, nat>)
    requires StagedTree(base, s) && Mapped(plan, staged, s, |plan|)
    ensures Staged(s, plan, staged, 0) && Indexed(plan, staged, |s.paths|)
  {
  }

  /** The clean-up of a success owns the backups and the stages no write has taken. */
  ghost predicate Owned(plan: seq<Operation>, staged: map<nat, nat>, artifacts: seq<Artifact>, next: nat) {
    forall i | 0 <= i < |artifacts| ::
      && (artifacts[i].onSuccess <==> i !in Taken(plan, staged, 0, next))
      && (artifacts[i].stage ==> IsStage(plan, staged, i, |plan|))
  }

  lemma OwnedStart(plan: seq<Operation>, staged: map<nat, nat>, artifacts: seq<Artifact>)
    requires AllStages(plan, staged, |artifacts|, |plan|) && forall i :: 0 <= i < |artifacts| ==> artifacts[i].onSuccess
    ensures Owned(plan, staged, artifacts, 0)
  {
    assert Taken(plan, staged, 0, 0) == {};
  }

  lemma OwnedNext(plan: seq<Operation>, staged: map<nat, nat>, a: seq<Artifact>, b: seq<Artifact>, next: nat, stages: nat)
    requires next < |plan| && Owned(plan, staged, a, next) && Indexed(plan, staged, stages) && stages <= |a|
    requires Flagged(a, b, if plan[next].Write? then {StageOf(staged, next)} else {})
    ensures Owned(plan, staged, b, next + 1)
  {
    StagesApart(plan, staged, next, stages);
    var before, after := Taken(plan, staged, 0, next), Taken(plan, staged, 0, next + 1);
    hide Taken, Indexed, IsStage;
    forall i | 0 <= i < |b| ensures (b[i].onSuccess <==> i !in after) && (b[i].stage ==> IsStage(plan, staged, i, |plan|)) {
      if i < |a| {
        assert a[i].onSuccess <==> i !in before;
      }
    }
  }

  // ----- the two outcomes -----

  /** Rollback and clean-up restore the original files but for those at the paths still owned. */
  lemma RolledBackFiles(base: Files, plan: seq<Operation>, staged: map<nat, nat>, undo: seq<Undo>, snaps: seq<Snap>,
                        completed: nat, before: Files, artifacts: seq<Artifact>, after: Files)
    requires UndoneTo(plan, staged, undo, snaps, 0, completed, before, Paths(artifacts)) && StagedTree(base, snaps[0])
    requires forall i :: 0 <= i < |artifacts| ==> (artifacts[i].onFailure <==> i < |snaps[0].paths|)
    requires forall q | q in after :: q in before && after[q] == before[q]
    requires forall q | q in before :: q !in after <==> RemovedBy(artifacts, |artifacts|, false, q)
    ensures after == base - Lost(plan, completed)
  {
    var s, taken := snaps[0], Taken(plan, staged, 0, completed);
    forall q | q in base ensures q in before && (q !in after <==> q in Lost(plan, completed)) {
      BaseKept(base, plan, staged, undo, snaps, completed, before, artifacts, q);
    }
    forall q | q in before && q !in base ensures q !in after {
      StageRemoved(base, plan, staged, undo, snaps, completed, before, artifacts, q);
    }
  }

  lemma StagingCleaned(base: Files, s: Snap, artifacts: seq<Artifact>, after: Files)
    requires StagedTree(base, s) && s.paths == Paths(artifacts)
    requires forall i :: 0 <= i < |artifacts| ==> artifacts[i].onFailure
    requires forall q | q in after :: q in s.files && after[q] == s.files[q]
    requires forall q | q in s.files :: q !in after <==> RemovedBy(artifacts, |artifacts|, false, q)
    ensures after == base
  {
    assert forall i :: 0 <= i < |artifacts| ==> artifacts[i].path == Paths(artifacts)[i];
    forall q | q in s.files ensures q in after <==> q in base {
      if q !in base {
        var i :| 0 <= i < |s.paths| && s.paths[i] == q;
        assert Removes(artifacts[i], false, q);
      }
    }
  }

  lemma BaseKept(base: Files, plan: seq<Operation>, staged: map<nat, nat>, undo: seq<Undo>, snaps: seq<Snap>,
                 completed: nat, before: Files, artifacts: seq<Artifact>, q: Path)
    requires UndoneTo(plan, staged, undo, snaps, 0, completed, before, Paths(artifacts)) && StagedTree(base, snaps[0])
    requires forall i :: 0 <= i < |artifacts| ==> (artifacts[i].onFailure <==> i < |snaps[0].paths|)
    requires q in base
    ensures q in before && before[q] == base[q]
    ensures RemovedBy(artifacts, |artifacts|, false, q) <==> q in Lost(plan, completed)
  {
    var s, taken := snaps[0], Taken(plan, staged, 0, completed);
    forall i | 0 <= i < |s.paths| ensures s.paths[i] != q {
      assert !(s.paths[i] <= q);
    }
    if RemovedBy(artifacts, |artifacts|, false, q) {
      RemovedIsLost(plan, staged, undo, snaps, completed, before, artifacts, q);
    }
    if q in Lost(plan, completed) {
      LostIsRemoved(plan, staged, undo, snaps, completed, before, artifacts, q);
    }
  }

  lemma RemovedIsLost(plan: seq<Operation>, staged: map<nat, nat>, undo: seq<Undo>, snaps: seq<Snap>,
                      completed: nat, before: Files, artifacts: seq<Artifact>, q: Path)
    requires UndoneTo(plan, staged, undo, snaps, 0, completed, before, Paths(artifacts))
    requires forall i :: 0 <= i < |artifacts| ==> (artifacts[i].onFailure <==> i < |snaps[0].paths|)
    requires RemovedBy(artifacts, |artifacts|, false, q) && forall i | 0 <= i < |snaps[0].paths| :: snaps[0].paths[i] != q
    ensures q in Lost(plan, completed)
  {
    var i :| 0 <= i < |artifacts| && Removes(artifacts[i], false, q);
    assert Paths(artifacts)[i] == q;
    assert i in Taken(plan, staged, 0, completed);
    var k :| 0 <= k < completed && k < |plan| && plan[k].Write? && i == StageOf(staged, k);
    assert plan[0..k] == plan[..k];
  }

  lemma LostIsRemoved(plan: seq<Operation>, staged: map<nat, nat>, undo: seq<Undo>, snaps: seq<Snap>,
                      completed: nat, before: Files, artifacts: seq<Artifact>, q: Path)
    requires UndoneTo(plan, staged, undo, snaps, 0, completed, before, Paths(artifacts))
    requires forall i :: 0 <= i < |artifacts| ==> (artifacts[i].onFailure <==> i < |snaps[0].paths|)
    requires q in Lost(plan, completed)
    ensures RemovedBy(artifacts, |artifacts|, false, q)
  {
    var k :| 0 <= k < completed && plan[k].Write? && q == Back(plan[..k], plan[k].path);
    assert plan[0..k] == plan[..k];
    assert Paths(artifacts)[StageOf(staged, k)] == q;
    assert Removes(artifacts[StageOf(staged, k)], false, q);
  }

  lemma StageRemoved(base: Files, plan: seq<Operation>, staged: map<nat, nat>, undo: seq<Undo>, snaps: seq<Snap>,
                     completed: nat, before: Files, artifacts: seq<Artifact>, q: Path)
    requires UndoneTo(plan, staged, undo, snaps, 0, completed, before, Paths(artifacts)) && StagedTree(base, snaps[0])
    requires forall i :: 0 <= i < |artifacts| ==> (artifacts[i].onFailure <==> i < |snaps[0].paths|)
    requires q in before && q !in base
    ensures RemovedBy(artifacts, |artifacts|, false, q)
  {
    var s, taken := snaps[0], Taken(plan, staged, 0, completed);
    var i :| 0 <= i < |s.paths| && s.paths[i] == q;
    assert forall m :: m in taken && m < |s.paths| ==> s.paths[m] in PathsOf(s, taken);
    assert Paths(artifacts)[i] == q;
    assert Removes(artifacts[i], false, q);
  }

  /** The clean-up of a committed plan removes exactly what was hidden. */
  lemma CommittedFiles(base: Files, s: Snap, plan: seq<Operation>, staged: map<nat, nat>, artifacts: seq<Artifact>, after: Files)
    requires OnCourse(s, plan, staged, |plan|, base) && s.paths == Paths(artifacts)
    requires forall i | 0 <= i < |artifacts| :: artifacts[i].onSuccess <==> i !in Taken(plan, staged, 0, |plan|)
    requires forall i | 0 <= i < |artifacts| && artifacts[i].stage :: i in Taken(plan, staged, 0, |plan|)
    requires forall q | q in after :: q in s.files && after[q] == s.files[q]
    requires forall q | q in s.files :: q !in after <==> RemovedBy(artifacts, |artifacts|, true, q)
    ensures after == PlanEffect(plan, base)
  {
    assert plan[..|plan|] == plan;
    var taken := Taken(plan, staged, 0, |plan|);
    forall q ensures Hidden(s, taken, q) <==> RemovedBy(artifacts, |artifacts|, true, q) {
      if Hidden(s, taken, q) {
        var i :| 0 <= i < |s.paths| && i !in taken && s.paths[i] <= q;
        assert artifacts[i].path == Paths(artifacts)[i];
        assert Removes(artifacts[i], true, q);
      }
      if RemovedBy(artifacts, |artifacts|, true, q) {
        var i :| 0 <= i < |artifacts| && Removes(artifacts[i], true, q);
        assert artifacts[i].path == Paths(artifacts)[i];
      }
    }
  }

  // ----- when a rollback restores everything -----

  /** A rollback restores every file exactly when no traced path held one to begin with. */
  lemma RestoredExactly(plan: seq<Operation>, completed: nat, base: Files)
    requires completed <= |plan|
    ensures base - Lost(plan, completed) == base <==> forall p :: p in Lost(plan, completed) ==> p !in base
  {
    if base - Lost(plan, completed) == base {
      forall p | p in Lost(plan, completed) ensures p !in base {
        assert p !in base - Lost(plan, completed);
      }
    }
  }

  /** No move before operation `k` puts anything at or above `p`. */
  predicate NotMovedOver(ops: seq<Operation>, p: Path) {
    forall j :: 0 <= j < |ops| && ops[j].Move? ==> !(ops[j].to <= p)
  }

  lemma {:induction false} BackStays(ops: seq<Operation>, p: Path)
    requires NotMovedOver(ops, p)
    ensures Back(ops, p) == p
  {
    if ops != [] {
      forall j | 0 <= j < |ops[1..]| && ops[1..][j].Move? ensures !(ops[1..][j].to <= p) {
        assert ops[1..][j] == ops[j + 1];
      }
      BackStays(ops[1..], p);
    }
  }

  /**
   Without moves over later targets, exactly the overwritten targets are lost: a
   plan whose writes all found their paths free, as the preflight checks for writes
   that may not overwrite, is restored in full.
   */
  lemma LostAreTargets(plan: seq<Operation>, completed: nat, base: Files)
    requires completed <= |plan|
    requires forall k | 0 <= k < completed && plan[k].Write? :: NotMovedOver(plan[..k], plan[k].path)
    ensures Lost(plan, completed) == set k | 0 <= k < completed && plan[k].Write? :: plan[k].path
    ensures base - Lost(plan, completed) == base <==> forall k | 0 <= k < completed && plan[k].Write? :: plan[k].path !in base
  {
    forall k | 0 <= k < completed && plan[k].Write? ensures Back(plan[..k], plan[k].path) == plan[k].path {
      BackStays(plan[..k], plan[k].path);
    }
    var targets := set k | 0 <= k < completed && plan[k].Write? :: plan[k].path;
    forall p | p in targets ensures p in Lost(plan, completed) {
      var k :| 0 <= k < completed && plan[k].Write? && p == plan[k].path;
      assert p == Back(plan[..k], plan[k].path);
    }
    forall p | p in Lost(plan, completed) ensures p in targets {
      var k :| 0 <= k < completed && plan[k].Write? && p == Back(plan[..k], plan[k].path);
    }
    RestoredExactly(plan, completed, base);
    forall k | 0 <= k < completed && plan[k].Write? ensures plan[k].path in targets {
    }
  }

  /** `c` is moved to `a/x`, the directory `a` to `b`, `a/x` is written anew, and `c` is to be removed. */
  function MovedTwice(a: Name, b: Name, c: Name, x: Name, written: Content): seq<Operation> {
    [Move([c], [a, x]), Move([a], [b]), Write([a, x], written, false), Remove([c])]
  }

  /** The same plan, step by step: the write is staged beside its target, in the directory that then moves. */
  function MovedTwiceSnaps(a: Name, b: Name, c: Name, x: Name, stage: Name, kept: Content, written: Content): seq<Snap> {
    [ Snap(map[[c] := kept, [a, stage] := written], [[a, stage]]),
      Snap(map[[a, x] := kept, [a, stage] := written], [[a, stage]]),
      Snap(map[[b, x] := kept, [b, stage] := written], [[b, stage]]),
      Snap(map[[b, x] := kept, [a, x] := written], [[a, x]]) ]
  }

  lemma Apart(p: Path, q: Path)
    requires p != [] && q != [] && (p[0] != q[0] || (|p| > 1 && |q| > 1 && p[1] != q[1]))
    ensures !(p <= q) && !(q <= p)
  {
  }

  /** A rename of a tree of two files. */
  lemma RenameTwo(p: Path, pc: Content, q: Path, qc: Content, from: Path, to: Path)
    requires p != q && !(to <= p) && !(to <= q)
    ensures var files: Files := map[p := pc, q := qc];
      Free(files, to) && Rename(files, from, to) == map[Renamed(p, from, to) := pc, Renamed(q, from, to) := qc]
  {
    var files: Files := map[p := pc, q := qc];
    RenameKeys(files, from, to);
    RenamedBack(p, from, to);
    RenamedBack(q, from, to);
    hide Renamed, Rename;
    forall x | x in Rename(files, from, to) ensures x in {Renamed(p, from, to), Renamed(q, from, to)} {
      assert Renamed(x, to, from) in {p, q};
    }
  }

  lemma FirstMove(a: Name, b: Name, c: Name, x: Name, stage: Name, kept: Content, written: Content)
    requires a != b && a != c && b != c && x != stage
    ensures var snaps := MovedTwiceSnaps(a, b, c, x, stage, kept, written);
      CanMove(snaps[0], [c], [a, x]) && Moved(snaps[0], [c], [a, x]) == snaps[1]
  {
    var s := MovedTwiceSnaps(a, b, c, x, stage, kept, written)[0];
    Apart([a, x], [c]);
    Apart([a, x], [a, stage]);
    Apart([c], [a, stage]);
    RenameTwo([c], kept, [a, stage], written, [c], [a, x]);
    RenamedWhole([c], [a, x]);
    assert PathsRenamed(s.paths, [c], [a, x]) == s.paths;
  }

  lemma SecondMove(a: Name, b: Name, c: Name, x: Name, stage: Name, kept: Content, written: Content)
    requires a != b && x != stage
    ensures var snaps := MovedTwiceSnaps(a, b, c, x, stage, kept, written);
      CanMove(snaps[1], [a], [b]) && Moved(snaps[1], [a], [b]) == snaps[2]
  {
    var s := MovedTwiceSnaps(a, b, c, x, stage, kept, written)[1];
    Apart([b], [a, x]);
    Apart([b], [a, stage]);
    Apart([a], [b]);
    RenameTwo([a, x], kept, [a, stage], written, [a], [b]);
    RenamedChild(a, b, x);
    RenamedChild(a, b, stage);
    assert PathsRenamed(s.paths, [a], [b]) == [[b, stage]];
  }

  lemma RenamedChild(a: Name, b: Name, n: Name)
    ensures Renamed([a, n], [a], [b]) == [b, n]
  {
    assert [a, n][1..] == [n];
  }

  lemma ThenInstalled(a: Name, b: Name, c: Name, x: Name, stage: Name, kept: Content, written: Content)
    requires a != b && x != stage
    ensures var snaps := MovedTwiceSnaps(a, b, c, x, stage, kept, written);
      CanInstall(snaps[2], 0, [a, x]) && Installed(snaps[2], 0, [a, x]) == snaps[3]
  {
    Apart([a, x], [b, x]);
    Apart([a, x], [b, stage]);
    Apart([b, x], [b, stage]);
  }

  /**
   A plan with no overwriting write whose rollback deletes an original file: from a
   tree with the file `c` and the directory `a` it completes its moves and its write,
   its removal then finds no `c`, and undoing the moves takes the path the clean-up
   still owns from `a/x` back to `c`, where the original file is by then.
   */
  lemma RollbackDeletesMovedFile(a: Name, b: Name, c: Name, x: Name, stage: Name, kept: Content, written: Content)
    requires a != b && a != c && b != c && a.Plain? && b.Plain? && c.Plain? && x.Plain? && stage.Transaction?
    ensures var plan := MovedTwice(a, b, c, x, written);
      var base: Files := map[[c] := kept];
      var snaps := MovedTwiceSnaps(a, b, c, x, stage, kept, written);
      var undo := [UndoMove([c], [a, x], true, []), UndoMove([a], [b], true, []), UndoWrite([a, x], true, None, [[a]])];
      && OrdinaryPlan(plan) && StagedTree(base, snaps[0]) && History(plan, map[2 := 0], undo, snaps, 3)
      && [c] !in snaps[3].files && Lost(plan, 3) == {[c]} && base - Lost(plan, 3) == map[]
  {
    hide Lost, Moved, CanMove, Installed, CanInstall, MovedTwice, MovedTwiceSnaps;
    TwiceHistory(a, b, c, x, stage, kept, written);
    TracedTwice(a, b, c, x, written);
    TwiceStaged(a, b, c, x, stage, kept, written);
  }

  lemma TwiceStaged(a: Name, b: Name, c: Name, x: Name, stage: Name, kept: Content, written: Content)
    requires a != c && b != c && a.Plain? && b.Plain? && c.Plain? && x.Plain? && stage.Transaction?
    ensures var snaps := MovedTwiceSnaps(a, b, c, x, stage, kept, written);
      && OrdinaryPlan(MovedTwice(a, b, c, x, written)) && StagedTree(map[[c] := kept], snaps[0])
      && |snaps| == 4 && [c] !in snaps[3].files
  {
    Apart([a, stage], [c]);
    assert [a, stage][..1] == [a];
    assert [c][0] != [b, x][0] && [c][0] != [a, x][0];
  }

  lemma TwiceHistory(a: Name, b: Name, c: Name, x: Name, stage: Name, kept: Content, written: Content)
    requires a != b && a != c && b != c && x != stage
    ensures History(MovedTwice(a, b, c, x, written), map[2 := 0],
      [UndoMove([c], [a, x], true, []), UndoMove([a], [b], true, []), UndoWrite([a, x], true, None, [[a]])],
      MovedTwiceSnaps(a, b, c, x, stage, kept, written), 3)
  {
    hide Moved, CanMove, Installed, CanInstall;
    FirstMove(a, b, c, x, stage, kept, written);
    SecondMove(a, b, c, x, stage, kept, written);
    ThenInstalled(a, b, c, x, stage, kept, written);
  }

  lemma TracedTwice(a: Name, b: Name, c: Name, x: Name, written: Content)
    requires a != b && a != c && b != c
    ensures Lost(MovedTwice(a, b, c, x, written), 3) == {[c]}
  {
    var plan := MovedTwice(a, b, c, x, written);
    var p: Path := [a, x];
    assert plan[..2] == [plan[0], plan[1]];
    assert plan[..2][1..] == [plan[1]] && [plan[1]][1..] == [];
    assert Back([], p) == p;
    assert [b][0] != p[..1][0];
    assert Back([plan[1]], p) == p;
    assert p[|p|..] == [];
    assert Back(plan[..2], p) == Renamed(p, [a, x], [c]) == [c];
  }
}

/**
 Paths, renames and snapshots behind the transactional file plan
 (packages/cli/src/file-plan.ts).

 A path is its list of components. Components that start with the transaction
 prefix are a constructor of their own. Contents are opaque.
 */
module FileTree {
  type Content = int

  datatype Name = Plain(text: int) | Transaction(tag: int)

  type Path = seq<Name>

  type Files = map<Path, Content>

  /** No component carries the transaction prefix. */
  predicate Ordinary(p: Path) {
    forall i :: 0 <= i < |p| ==> p[i].Plain?
  }

  /** `q` is `p` or lies under it exactly when `p <= q`. */
  predicate Free(files: Files, p: Path) {
    forall q :: q in files ==> !(p <= q)
  }

  /** Where a rename of `from` to `to` takes `q`; also `rewriteArtifacts` on one path. */
  function Renamed(q: Path, from: Path, to: Path): Path {
    if from <= q then to + q[|from|..] else q
  }

  function Without(files: Files, p: Path): Files {
    map q | q in files && !(p <= q) :: files[q]
  }

  /** The file tree after a rename onto a free path. */
  function Rename(files: Files, from: Path, to: Path): Files
    requires Free(files, to)
  {
    map q | q in (set x | x in files :: Renamed(x, from, to)) && Renamed(q, to, from) in files :: files[Renamed(q, to, from)]
  }

  lemma RenamedBack(q: Path, from: Path, to: Path)
    requires !(to <= q)
    ensures Renamed(Renamed(q, from, to), to, from) == q
  {
    if from <= q {
      assert Renamed(q, from, to)[|to|..] == q[|from|..];
    }
  }

  lemma RenamedWhole(from: Path, to: Path)
    ensures Renamed(from, from, to) == to
  {
    assert from[|from|..] == [];
  }

  /** What a rename does, key by key. */
  lemma RenameKeys(files: Files, from: Path, to: Path)
    requires Free(files, to)
    ensures forall q :: q in files ==> Renamed(q, from, to) in Rename(files, from, to) && Rename(files, from, to)[Renamed(q, from, to)] == files[q]
    ensures forall q :: q in Rename(files, from, to) ==> Renamed(q, to, from) in files && Renamed(Renamed(q, to, from), from, to) == q
  {
    forall q | q in files ensures Renamed(Renamed(q, from, to), to, from) == q {
      RenamedBack(q, from, to);
    }
  }

  /** Renaming there and back is the identity. */
  lemma RenameBack(files: Files, from: Path, to: Path)
    requires Free(files, to) && !(from <= to)
    ensures Free(Rename(files, from, to), from)
    ensures Rename(Rename(files, from, to), to, from) == files
  {
    RenameKeys(files, from, to);
    var moved := Rename(files, from, to);
    forall q | q in moved ensures !(from <= q) {
      var x := Renamed(q, to, from);
      if from <= x && from <= q {
        Overlap(from, to, x[|from|..]);
        assert false;
      }
    }
    RenameKeys(moved, to, from);
    forall q | q in files ensures q in Rename(moved, to, from) && Rename(moved, to, from)[q] == files[q] {
      RenamedBack(q, from, to);
      assert Renamed(Renamed(q, from, to), to, from) == q;
    }
    forall q | q in Rename(moved, to, from) ensures q in files {
      assert Renamed(q, from, to) in moved;
    }
  }

  /** Two prefixes of one path are comparable. */
  lemma Overlap(from: Path, to: Path, rest: Path)
    requires from <= to + rest
    ensures from <= to || to <= from
  {
    if |from| <= |to| {
      assert forall i :: 0 <= i < |from| ==> from[i] == (to + rest)[i];
      assert from == to[..|from|];
    } else {
      assert forall i :: 0 <= i < |to| ==> from[i] == (to + rest)[i];
      assert to == from[..|to|];
    }
  }

  function Images(gone: set<Path>, from: Path, to: Path): set<Path> {
    set x | x in gone :: Renamed(x, from, to)
  }

  /** Renaming commutes with files missing. */
  lemma RenameWithout(files: Files, gone: set<Path>, from: Path, to: Path)
    requires Free(files, to) && gone <= files.Keys
    ensures Free(files - gone, to)
    ensures Rename(files - gone, from, to) == Rename(files, from, to) - Images(gone, from, to)
  {
    RenameKeys(files, from, to);
    RenameKeys(files - gone, from, to);
    forall q | q in Rename(files, from, to) - Images(gone, from, to) ensures q in Rename(files - gone, from, to) {
      assert Renamed(q, to, from) !in gone;
    }
    forall q | q in Images(gone, from, to) ensures q !in Rename(files - gone, from, to) {
      var x :| x in gone && q == Renamed(x, from, to);
      RenamedBack(x, from, to);
    }
  }

  // ----- directories -----

  /** `q` lies strictly above `p`. */
  predicate Above(q: Path, p: Path) {
    |q| < |p| && q == p[..|q|]
  }

  function Parent(p: Path): Path {
    if p == [] then [] else p[..|p| - 1]
  }

  /** A path and everything above it. */
  function Prefixes(p: Path): set<Path> {
    set k | 0 <= k <= |p| :: p[..k]
  }

  /** No file is a directory, and whatever exists lies in directories. */
  ghost predicate WellFormed(files: Files, dirs: set<Path>) {
    && (forall p :: p in files ==> p !in dirs)
    && (forall p, q :: p in files && Above(q, p) ==> q in dirs)
    && (forall p, q :: p in dirs && Above(q, p) ==> q in dirs)
  }

  lemma PrefixIsAbove(q: Path, p: Path)
    ensures q <= p <==> q == p || Above(q, p)
  {
    if q <= p && |q| == |p| {
      assert q == p;
    }
  }

  lemma AboveParent(q: Path, p: Path)
    requires Above(q, p)
    ensures q == Parent(p) || Above(q, Parent(p))
  {
    assert p[..|p| - 1][..|q|] == p[..|q|];
  }

  lemma AboveTwice(a: Path, b: Path, c: Path)
    requires Above(a, b) && Above(b, c)
    ensures Above(a, c)
  {
    assert c[..|b|][..|a|] == c[..|a|];
  }

  lemma InPrefixes(q: Path, p: Path)
    ensures q in Prefixes(p) <==> q == p || Above(q, p)
  {
    assert p[..|p|] == p;
    if Above(q, p) {
      assert q == p[..|q|];
    }
  }

  /** Below what does not exist there is nothing. */
  lemma NothingBelow(files: Files, dirs: set<Path>, p: Path)
    requires WellFormed(files, dirs) && p !in files && p !in dirs
    ensures Free(files, p) && forall q :: q in dirs ==> !(p <= q)
  {
    forall q | q in files ensures !(p <= q) {
      PrefixIsAbove(p, q);
    }
    forall q | q in dirs ensures !(p <= q) {
      PrefixIsAbove(p, q);
    }
  }

  /** A file has nothing below it. */
  lemma NothingBelowFile(files: Files, dirs: set<Path>, p: Path)
    requires WellFormed(files, dirs) && p in files
    ensures forall q :: q in files && p <= q ==> q == p
    ensures forall q :: q in dirs ==> !(p <= q)
  {
    forall q | q in files && p <= q ensures q == p {
      PrefixIsAbove(p, q);
    }
    forall q | q in dirs ensures !(p <= q) {
      PrefixIsAbove(p, q);
    }
  }

  lemma NothingMoves(dirs: set<Path>, from: Path, to: Path)
    requires forall q :: q in dirs ==> !(from <= q)
    ensures Images(dirs, from, to) == dirs
  {
    forall q | q in dirs ensures Renamed(q, from, to) == q && q in Images(dirs, from, to) {
    }
  }

  lemma FileIsNoDirectory(files: Files, dirs: set<Path>, p: Path)
    requires WellFormed(files, dirs) && p in files
    ensures p !in dirs
  {
  }

  lemma FewerFiles(files: Files, dirs: set<Path>, gone: set<Path>)
    requires WellFormed(files, dirs)
    ensures WellFormed(files - gone, dirs)
  {
  }

  lemma OneMoreFile(files: Files, dirs: set<Path>, p: Path, content: Content)
    requires WellFormed(files, dirs) && p !in dirs && p != [] && Parent(p) in dirs
    ensures WellFormed(files[p := content], dirs)
  {
    forall q | Above(q, p) ensures q in dirs {
      AboveParent(q, p);
    }
  }

  lemma MoreDirectories(files: Files, dirs: set<Path>, p: Path)
    requires WellFormed(files, dirs) && Prefixes(p) !! files.Keys
    ensures WellFormed(files, dirs + Prefixes(p))
  {
    forall q, x | x in Prefixes(p) && Above(q, x) ensures q in Prefixes(p) {
      InPrefixes(x, p);
      if x != p {
        AboveTwice(q, x, p);
      }
      InPrefixes(q, p);
    }
  }

  /** An empty directory can go. */
  lemma FewerDirectories(files: Files, dirs: set<Path>, p: Path)
    requires WellFormed(files, dirs) && (forall q :: q in files || q in dirs ==> !Above(p, q))
    ensures WellFormed(files, dirs - {p})
  {
  }

  /** Where a rename takes what lies above something. */
  lemma AboveRenamed(p: Path, q: Path, from: Path, to: Path)
    requires Above(q, Renamed(p, from, to)) && !(from <= to) && to != []
    ensures q == Parent(to) || Above(q, Parent(to)) || exists x :: Above(x, p) && q == Renamed(x, from, to)
    ensures q == Parent(to) || Above(q, Parent(to)) ==> Renamed(q, from, to) == q
  {
    var r := Renamed(p, from, to);
    if from <= p {
      if |q| < |to| {
        assert q == to[..|q|];
        AboveParent(q, to);
      } else {
        var x := p[..|from| + (|q| - |to|)];
        assert x[..|from|] == from && x[|from|..] == p[|from|..][..|q| - |to|];
        assert q == to + x[|from|..];
        assert Above(x, p) && q == Renamed(x, from, to);
      }
    } else {
      PrefixIsAbove(from, q);
      PrefixIsAbove(from, p);
      assert from <= q ==> from <= p;
      assert Above(q, p) && q == Renamed(q, from, to);
    }
    if q == Parent(to) || Above(q, Parent(to)) {
      assert q <= to;
      assert from <= q ==> from <= to;
    }
  }

  /** A rename to a free place in an existing directory keeps a file system one. */
  lemma RenameKeepsForm(files: Files, dirs: set<Path>, from: Path, to: Path)
    requires WellFormed(files, dirs) && to !in files && to !in dirs
    requires !(from <= to) && to != [] && Parent(to) in dirs
    ensures Free(files, to) && WellFormed(Rename(files, from, to), Images(dirs, from, to))
  {
    NothingBelow(files, dirs, to);
    RenameKeys(files, from, to);
    var files', dirs' := Rename(files, from, to), Images(dirs, from, to);
    forall p | p in files' ensures p !in dirs' {
      var x := Renamed(p, to, from);
      if p in dirs' {
        var y :| y in dirs && p == Renamed(y, from, to);
        RenamedBack(y, from, to);
        assert false;
      }
    }
    forall p, q | p in files' && Above(q, p) ensures q in dirs' {
      AboveMoves(files, dirs, from, to, Renamed(p, to, from), q);
    }
    forall p, q | p in dirs' && Above(q, p) ensures q in dirs' {
      var y :| y in dirs && p == Renamed(y, from, to);
      AboveMoves(files, dirs, from, to, y, q);
    }
  }

  lemma AboveMoves(files: Files, dirs: set<Path>, from: Path, to: Path, p: Path, q: Path)
    requires WellFormed(files, dirs) && (p in files || p in dirs)
    requires !(from <= to) && to != [] && Parent(to) in dirs && Above(q, Renamed(p, from, to))
    ensures q in Images(dirs, from, to)
  {
    AboveRenamed(p, q, from, to);
    if q == Parent(to) || Above(q, Parent(to)) {
      assert q in dirs;
    } else {
      var x :| Above(x, p) && q == Renamed(x, from, to);
      assert x in dirs;
    }
  }

  // ----- names nothing uses yet -----

  /** No component of `q` is a transaction name numbered `n` or later. */
  ghost predicate Untagged(q: Path, uuid: nat -> int, n: nat) {
    forall i: nat | n <= i :: Transaction(uuid(i)) !in q
  }

  ghost predicate FreshNames(files: Files, dirs: set<Path>, uuid: nat -> int, n: nat) {
    && (forall i: nat, j: nat :: uuid(i) == uuid(j) ==> i == j)
    && forall q | q in files || q in dirs :: Untagged(q, uuid, n)
  }

  lemma OrdinaryUntagged(q: Path, uuid: nat -> int, n: nat)
    requires Ordinary(q)
    ensures Untagged(q, uuid, n)
  {
  }

  lemma FreshDirectories(files: Files, dirs: set<Path>, p: Path, uuid: nat -> int, n: nat)
    requires FreshNames(files, dirs, uuid, n) && Ordinary(p)
    ensures FreshNames(files, dirs + Prefixes(p), uuid, n)
  {
    forall q | q in Prefixes(p) ensures Untagged(q, uuid, n) {
      OrdinaryUntagged(q, uuid, n);
    }
    hide Untagged, Prefixes;
  }

  lemma FreshRename(files: Files, dirs: set<Path>, from: Path, to: Path, uuid: nat -> int, n: nat)
    requires FreshNames(files, dirs, uuid, n) && Untagged(to, uuid, n) && Free(files, to)
    ensures FreshNames(Rename(files, from, to), Images(dirs, from, to), uuid, n)
  {
    RenameKeys(files, from, to);
    hide Rename, Free;
    forall q | q in files || q in dirs ensures Untagged(Renamed(q, from, to), uuid, n) {
      assert forall name :: name in Renamed(q, from, to) ==> name in to || name in q;
    }
    hide Untagged, Renamed;
  }

  lemma FreshFile(files: Files, dirs: set<Path>, p: Path, content: Content, uuid: nat -> int, n: nat)
    requires FreshNames(files, dirs, uuid, n) && Untagged(p, uuid, n)
    ensures FreshNames(files[p := content], dirs, uuid, n)
  {
    hide Untagged;
  }

  lemma FreshWithout(files: Files, dirs: set<Path>, gone: set<Path>, uuid: nat -> int, n: nat)
    requires FreshNames(files, dirs, uuid, n)
    ensures FreshNames(files - gone, dirs, uuid, n)
  {
    hide Untagged;
  }

  /** The next name is used nowhere, and once it is taken the ones after it still are not. */
  lemma FreshSibling(files: Files, dirs: set<Path>, parent: Path, uuid: nat -> int, n: nat)
    requires FreshNames(files, dirs, uuid, n)
    ensures var sibling := parent + [Transaction(uuid(n))]; sibling !in files && sibling !in dirs
    ensures Ordinary(parent) ==> Untagged(parent + [Transaction(uuid(n))], uuid, n + 1)
    ensures FreshNames(files, dirs, uuid, n + 1)
  {
    var sibling := parent + [Transaction(uuid(n))];
    assert sibling[|parent|] == Transaction(uuid(n));
    assert Transaction(uuid(n)) in sibling;
    assert Ordinary(parent) ==> forall name :: name in sibling ==> name.Plain? || name == Transaction(uuid(n));
  }

  // ----- snapshots -----

  /** The files and the current path of every transaction artifact. */
  datatype Snap = Snap(files: Files, paths: seq<Path>)

  function PathsRenamed(paths: seq<Path>, from: Path, to: Path): seq<Path> {
    seq(|paths|, i requires 0 <= i < |paths| => Renamed(paths[i], from, to))
  }

  predicate CanMove(s: Snap, from: Path, to: Path) {
    Free(s.files, to) && !(from <= to) && forall i :: 0 <= i < |s.paths| ==> !(to <= s.paths[i])
  }

  function Moved(s: Snap, from: Path, to: Path): Snap
    requires Free(s.files, to)
  {
    Snap(Rename(s.files, from, to), PathsRenamed(s.paths, from, to))
  }

  /** A rename to a backup, which becomes an artifact itself. */
  function Parked(s: Snap, path: Path, backup: Path): Snap
    requires Free(s.files, backup)
  {
    Snap(Rename(s.files, path, backup), PathsRenamed(s.paths, path, backup) + [backup])
  }

  predicate CanInstall(s: Snap, stage: nat, path: Path) {
    && stage < |s.paths| && s.paths[stage] in s.files && Free(s.files, path)
    && forall i :: 0 <= i < |s.paths| ==> s.paths[i] != path
  }

  /** The staged file linked at its target, its stage name still there. */
  function Linked(s: Snap, stage: nat, path: Path): Snap
    requires CanInstall(s, stage, path)
  {
    s.(files := s.files[path := s.files[s.paths[stage]]])
  }

  /** The staged file at its target only; the artifact follows it. */
  function Installed(s: Snap, stage: nat, path: Path): Snap
    requires CanInstall(s, stage, path)
  {
    Snap(s.files[path := s.files[s.paths[stage]]] - {s.paths[stage]}, s.paths[stage := path])
  }

  // ----- undoing -----

  /** The paths artifacts `taken` had at snapshot `s`. */
  function PathsOf(s: Snap, taken: set<nat>): set<Path>
    requires forall i :: i in taken ==> i < |s.paths|
  {
    set i | i in taken :: s.paths[i]
  }

  /**
   `files` and `paths` are snapshot `s` again, but for the staged files that later
   operations took: those are gone, and their artifacts may point anywhere.
   */
  ghost predicate Reverted(files: Files, paths: seq<Path>, s: Snap, taken: set<nat>) {
    && (forall i :: i in taken ==> i < |s.paths| && s.paths[i] in s.files)
    && files == s.files - PathsOf(s, taken)
    && |s.paths| <= |paths|
    && (forall i :: 0 <= i < |s.paths| && i !in taken ==> paths[i] == s.paths[i])
  }

  lemma MoveReverts(files: Files, paths: seq<Path>, s: Snap, from: Path, to: Path, taken: set<nat>)
    requires CanMove(s, from, to) && Reverted(files, paths, Moved(s, from, to), taken)
    ensures Free(files, from)
    ensures Reverted(Rename(files, to, from), PathsRenamed(paths, to, from), s, taken)
  {
    var t := Moved(s, from, to);
    RenameBack(s.files, from, to);
    RenameKeys(s.files, from, to);
    forall i | 0 <= i < |s.paths| ensures Renamed(t.paths[i], to, from) == s.paths[i] {
      RenamedBack(s.paths[i], from, to);
    }
    RenameWithout(t.files, PathsOf(t, taken), to, from);
    assert Images(PathsOf(t, taken), to, from) == PathsOf(s, taken) by {
      forall q | q in PathsOf(s, taken) ensures q in Images(PathsOf(t, taken), to, from) {
        var i :| i in taken && q == s.paths[i];
        assert t.paths[i] in PathsOf(t, taken);
      }
    }
  }

  /** A backup goes back where it came from; its own index is no longer an artifact of `s`. */
  lemma ParkReverts(files: Files, paths: seq<Path>, s: Snap, path: Path, backup: Path, taken: set<nat>)
    requires CanMove(s, path, backup) && Reverted(files, paths, Parked(s, path, backup), taken) && |s.paths| !in taken
    ensures Free(files, path)
    ensures paths[|s.paths|] == backup
    ensures Reverted(Rename(files, backup, path), PathsRenamed(paths, backup, path), s, taken)
  {
    var t := Moved(s, path, backup);
    assert Reverted(files, paths, t, taken) by {
      assert PathsOf(t, taken) == PathsOf(Parked(s, path, backup), taken);
    }
    MoveReverts(files, paths, s, path, backup, taken);
  }

  lemma InstallReverts(files: Files, paths: seq<Path>, s: Snap, stage: nat, path: Path, taken: set<nat>)
    requires CanInstall(s, stage, path) && Reverted(files, paths, Installed(s, stage, path), taken) && stage !in taken
    ensures Reverted(files - {path}, paths, s, taken + {stage})
    ensures paths[stage] == path
  {
    var t := Installed(s, stage, path);
    forall i | i in taken ensures s.paths[i] in s.files && s.paths[i] != s.paths[stage] {
      assert t.paths[i] == s.paths[i];
    }
    assert PathsOf(s, taken + {stage}) == PathsOf(t, taken) + {s.paths[stage]} by {
      forall q | q in PathsOf(t, taken) ensures q in PathsOf(s, taken + {stage}) {
        var i :| i in taken && q == t.paths[i];
        assert s.paths[i] == q;
      }
    }
  }

  lemma LinkReverts(files: Files, paths: seq<Path>, s: Snap, stage: nat, path: Path)
    requires CanInstall(s, stage, path) && Reverted(files, paths, Linked(s, stage, path), {})
    ensures Reverted(files - {path}, paths, s, {})
  {
  }
}

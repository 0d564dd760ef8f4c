/** The part of the file system the two apps look at and change.

    A path is the sequence of its components from the root, already made
    absolute and normalised (what `Path.resolve()` and `os.path.abspath` give),
    so joining a name is appending a component and `relative_to` is a prefix
    test. A tree is the set of directories and the set of regular files that
    exist; `FileSystem` is the one mutable object holding it, and its methods
    are the operating-system calls the apps make. */
module FsModel {

  /** One path component: a directory or file name. */
  type Component = string

  /** An absolute path as the list of its components; `[]` is the root. */
  type Path = seq<Component>

  /** `Path(p) / c` */
  function Join(p: Path, c: Component): (r: Path)
    ensures Parent(r) == p && Name(r) == c
    ensures RelativeTo(r, p) && r != p
  {
    p + [c]
  }

  /** `Path(p).relative_to(base)` succeeds (does not raise `ValueError`) exactly
      when `base` is a prefix of `p`. */
  predicate RelativeTo(p: Path, base: Path) {
    base <= p
  }

  /** `Path(p).parent`; the root is its own parent. */
  function Parent(p: Path): Path {
    if p == [] then [] else p[..|p| - 1]
  }

  /** `Path(p).name` */
  function Name(p: Path): Component {
    if p == [] then "" else p[|p| - 1]
  }

  /** The root, every ancestor of `p`, and `p` itself. */
  function Prefixes(p: Path): set<Path> {
    set i | 0 <= i <= |p| :: p[..i]
  }

  /** `str(p)` of an absolute path. */
  function PathString(p: Path): string {
    if p == [] then "/" else Slashed(p)
  }

  function Slashed(p: Path): string
    decreases |p|
  {
    if p == [] then "" else Slashed(p[..|p| - 1]) + "/" + p[|p| - 1]
  }

  /** Which directory operations the operating system refuses in one step
      (permissions, a busy mount, ...): `removeDenied` makes `shutil.rmtree`
      raise `OSError`, `createDenied` makes a `mkdir` that has something to
      create raise it. */
  datatype DirFaults = DirFaults(removeDenied: bool, createDenied: bool)

  /** The directories and regular files that exist. */
  datatype Tree = Tree(dirs: set<Path>, files: set<Path>) {

    /** `Path(p).exists()` */
    predicate Exists(p: Path) {
      p in dirs || p in files
    }

    /** `Path(p).is_dir()` */
    predicate IsDir(p: Path) {
      p in dirs
    }

    /** `Path(p).is_file()` */
    predicate IsFile(p: Path) {
      p in files
    }

    /** A well-formed tree: nothing is both a file and a directory, the root
        is not a file, and every entry other than the root sits in a directory. */
    ghost predicate Valid() {
      && dirs !! files
      && [] !in files
      && (forall q {:trigger Parent(q)} | q in dirs && q != [] :: Parent(q) in dirs)
      && (forall q | q in files :: Parent(q) in dirs)
    }

    /** Nothing exists strictly beneath `d`. */
    predicate NothingBelow(d: Path) {
      && (forall q | q in dirs :: !(d < q))
      && (forall q | q in files :: !(d < q))
    }

    /** `d` is a directory with no contents. */
    predicate IsEmptyDir(d: Path) {
      IsDir(d) && NothingBelow(d)
    }

    /** The tree after `shutil.rmtree(p)` has succeeded: `p` and everything
        beneath it are gone. */
    function Removed(p: Path): Tree {
      Tree(set q | q in dirs && !(p <= q), set q | q in files && !(p <= q))
    }

    /** Whether `Path(p).mkdir(parents=True, exist_ok=True)` succeeds: it does
        nothing when `p` already is a directory, and otherwise raises when `p`
        or one of its ancestors is a file, or when the system refuses. */
    predicate MkdirSucceeds(p: Path, denied: bool) {
      p in dirs || (!denied && Prefixes(p) !! files)
    }

    /** The tree after that `mkdir` has succeeded. */
    function WithDirs(p: Path): Tree {
      Tree(dirs + Prefixes(p), files)
    }

    /** A process can create the regular file `p`: its directory exists and
        `p` is not a directory. */
    predicate CanCreateFile(p: Path) {
      p != [] && Parent(p) in dirs && p !in dirs
    }

    /** The tree after the files `ws` have been written. */
    function WithFiles(ws: set<Path>): Tree {
      Tree(dirs, files + ws)
    }
  }

  /** The preparation step both apps use to empty a directory: remove `p` with
      `shutil.rmtree` when it exists, then `mkdir(parents=True, exist_ok=True)`,
      any `OSError` turning the result into `false`. Gives the result and the
      tree afterwards (a failed `mkdir` after a successful removal leaves `p`
      removed). */
  function Reset(t: Tree, p: Path, f: DirFaults): (r: (bool, Tree))
    ensures r.0 ==> r.1.IsDir(p)
    ensures !r.0 ==> r.1 == t || r.1 == t.Removed(p)
    ensures t.Exists(p) && (!t.IsDir(p) || f.removeDenied) ==> r == (false, t)
  {
    assert p == p[..|p|];
    if t.Exists(p) then
      if !t.IsDir(p) || f.removeDenied then (false, t)
      else
        var t1 := t.Removed(p);
        if t1.MkdirSucceeds(p, f.createDenied) then (true, t1.WithDirs(p)) else (false, t1)
    else if t.MkdirSucceeds(p, f.createDenied) then (true, t.WithDirs(p))
    else (false, t)
  }

  lemma PrefixOfParent(p: Path, q: Path)
    requires p <= Parent(q)
    ensures p <= q
  {
    if q != [] {
      assert Parent(q) == q[..|q| - 1];
    }
  }

  /** Removing a subtree keeps a tree well formed. */
  lemma RemovedValid(t: Tree, p: Path)
    requires t.Valid()
    ensures t.Removed(p).Valid()
  {
    var r := t.Removed(p);
    forall q | q in r.dirs && q != []
      ensures Parent(q) in r.dirs
    {
      if p <= Parent(q) {
        PrefixOfParent(p, q);
      }
    }
    forall q | q in r.files
      ensures Parent(q) in r.dirs
    {
      if p <= Parent(q) {
        PrefixOfParent(p, q);
      }
    }
  }

  /** A successful `mkdir(parents=True)` keeps a tree well formed and leaves
      `p` a directory. */
  lemma WithDirsValid(t: Tree, p: Path, denied: bool)
    requires t.Valid() && t.MkdirSucceeds(p, denied)
    ensures t.WithDirs(p).Valid() && t.WithDirs(p).IsDir(p)
  {
    var r := t.WithDirs(p);
    assert p[..|p|] == p;
    assert p in Prefixes(p);
    if p in t.dirs {
      // every ancestor of an existing directory already exists
      forall i | 0 <= i <= |p|
        ensures p[..i] in t.dirs
      {
        AncestorsAreDirs(t, p, i);
      }
      assert r.dirs == t.dirs;
    } else {
      forall q | q in r.dirs && q != []
        ensures Parent(q) in r.dirs
      {
        if q in Prefixes(p) {
          var i :| 0 <= i <= |p| && q == p[..i];
          assert Parent(q) == p[..i - 1];
        }
      }
    }
  }

  lemma {:induction false} AncestorsAreDirs(t: Tree, p: Path, i: int)
    requires t.Valid() && p in t.dirs && 0 <= i <= |p|
    ensures p[..i] in t.dirs
    decreases |p| - i
  {
    if i < |p| {
      AncestorsAreDirs(t, p, i + 1);
      assert Parent(p[..i + 1]) == p[..i];
    } else {
      assert p[..i] == p;
    }
  }

  /** The outcome of the preparation step: it succeeds exactly when `p` is not
      a file, the removal (if one is needed) and the creation are allowed, and
      no ancestor of `p` is a file; on success `p` is an empty directory; and
      the tree stays well formed either way. */
  lemma ResetOutcome(t: Tree, p: Path, f: DirFaults)
    requires t.Valid()
    ensures Reset(t, p, f).1.Valid()
    ensures Reset(t, p, f).0 <==>
      && !t.IsFile(p)
      && !(t.IsDir(p) && f.removeDenied)
      && !f.createDenied
      && Prefixes(p) !! t.files
    ensures Reset(t, p, f).0 ==> Reset(t, p, f).1.IsEmptyDir(p)
  {
    var res := Reset(t, p, f);
    if t.IsDir(p) && !f.removeDenied {
      var t1 := t.Removed(p);
      RemovedValid(t, p);
      assert p !in t1.dirs;
      assert Prefixes(p) !! t1.files <==> Prefixes(p) !! t.files by {
        forall q | q in Prefixes(p)
          ensures q in t1.files <==> q in t.files
        {
          var i :| 0 <= i <= |p| && q == p[..i];
          if p <= q {
            assert q == p;
          }
        }
      }
      if t1.MkdirSucceeds(p, f.createDenied) {
        WithDirsValid(t1, p, f.createDenied);
        EmptyAfterCreate(t1, p);
      }
    } else if !t.Exists(p) && t.MkdirSucceeds(p, f.createDenied) {
      WithDirsValid(t, p, f.createDenied);
      OccupiedMeansDir(t, p);
      EmptyAfterCreate(t, p);
    }
  }

  lemma {:induction false} AncestorOfEntry(t: Tree, q: Path, i: int)
    requires t.Valid() && (q in t.dirs || q in t.files) && 0 <= i < |q|
    ensures q[..i] in t.dirs
  {
    assert Parent(q) == q[..|q| - 1];
    assert Parent(q) in t.dirs;
    if i < |q| - 1 {
      AncestorsAreDirs(t, Parent(q), i);
      assert Parent(q)[..i] == q[..i];
    }
  }

  lemma StrictPrefixIsDir(t: Tree, q: Path, p: Path)
    requires t.Valid() && (q in t.dirs || q in t.files) && p < q
    ensures p in t.dirs
  {
    AncestorOfEntry(t, q, |p|);
    assert q[..|p|] == p;
  }

  /** Anything beneath `p` makes `p` an existing directory. */
  lemma OccupiedMeansDir(t: Tree, p: Path)
    requires t.Valid()
    ensures !t.NothingBelow(p) ==> t.IsDir(p)
  {
    if !t.NothingBelow(p) {
      var q :| (q in t.dirs || q in t.files) && p < q;
      StrictPrefixIsDir(t, q, p);
    }
  }

  lemma EmptyAfterCreate(t: Tree, p: Path)
    requires t.NothingBelow(p)
    ensures t.WithDirs(p).NothingBelow(p)
  {
    forall q | q in Prefixes(p)
      ensures !(p < q)
    {
      var i :| 0 <= i <= |p| && q == p[..i];
      assert |q| == i;
    }
  }

  /** The preparation step touches nothing outside `p`: files elsewhere are
      exactly as before, directories elsewhere survive, and the only new
      directories are `p` and its ancestors. */
  lemma ResetKeepsOutside(t: Tree, p: Path, f: DirFaults)
    ensures forall q | !(p <= q) :: q in Reset(t, p, f).1.files <==> q in t.files
    ensures forall q | q in t.dirs && !(p <= q) :: q in Reset(t, p, f).1.dirs
    ensures forall q | q in Reset(t, p, f).1.dirs && q !in t.dirs :: q in Prefixes(p)
  {
  }

  /** The one mutable object of the model: the file system. Its methods are
      the operating-system operations the apps call. */
  class FileSystem {
    var tree: Tree

    ghost predicate Valid()
      reads this
    {
      tree.Valid()
    }

    /** `shutil.rmtree(p)`: raises `OSError` unless `p` is a directory (a file
        gives `NotADirectoryError`, a missing path `FileNotFoundError`), or
        when the system refuses. */
    method RemoveTree(p: Path, denied: bool) returns (ok: bool)
      requires Valid()
      modifies this
      ensures Valid()
      ensures ok <==> old(tree).IsDir(p) && !denied
      ensures tree == if ok then old(tree).Removed(p) else old(tree)
    {
      ok := tree.IsDir(p) && !denied;
      if ok {
        RemovedValid(tree, p);
        tree := tree.Removed(p);
      }
    }

    /** `Path(p).mkdir(parents=True, exist_ok=True)` */
    method MakeDirs(p: Path, denied: bool) returns (ok: bool)
      requires Valid()
      modifies this
      ensures Valid()
      ensures ok == old(tree).MkdirSucceeds(p, denied)
      ensures ok ==> tree.IsDir(p)
      ensures tree == if ok then old(tree).WithDirs(p) else old(tree)
    {
      ok := tree.MkdirSucceeds(p, denied);
      if ok {
        WithDirsValid(tree, p, denied);
        tree := tree.WithDirs(p);
      }
    }

    /** An external tool writing its output file `p`; the write takes effect
        only where a file can be created. */
    method ToolWrites(p: Path)
      requires Valid()
      modifies this
      ensures Valid()
      ensures tree == if old(tree).CanCreateFile(p) then old(tree).WithFiles({p}) else old(tree)
    {
      if tree.CanCreateFile(p) {
        tree := tree.WithFiles({p});
      }
    }
  }
}

/** Directory trees as sync-runtime.py sees them, and its two ways of leaving files out. */
module RuntimeTree {
  import opened Wrappers

  datatype Tree = File(content: string) | Dir(children: map<string, Tree>)

  type Path = seq<string>

  const IgnoredNames: set<string> := {".DS_Store", ".pytest_cache", ".ruff_cache", "__pycache__"}

  predicate IgnoredName(name: string) {
    name in IgnoredNames || (|name| >= 4 && name[|name| - 4..] == ".pyc")
  }

  /** `ignored`: some part of the path is. */
  predicate Ignored(path: Path) {
    exists i :: 0 <= i < |path| && IgnoredName(path[i])
  }

  /** What `copytree` makes of a tree with `copy_ignore`, which sees one directory's names at a time. */
  function Filter(t: Tree): Tree {
    match t
    case File(_) => t
    case Dir(children) => Dir(map name | name in children && !IgnoredName(name) :: Filter(children[name]))
  }

  /** The file at a path. */
  function Lookup(t: Tree, path: Path): Option<string>
    decreases |path|
  {
    match t
    case File(content) => if path == [] then Some(content) else None
    case Dir(children) =>
      if path == [] || path[0] !in children then None else Lookup(children[path[0]], path[1..])
  }

  function FilePaths(t: Tree): set<Path> {
    match t
    case File(_) => {[]}
    case Dir(children) => set name, rest | name in children && rest in FilePaths(children[name]) :: [name] + rest
  }

  lemma {:induction false} FilePathsAreFiles(t: Tree, path: Path)
    ensures path in FilePaths(t) <==> Lookup(t, path).Some?
    decreases t
  {
    match t
    case File(_) =>
    case Dir(children) =>
      if path != [] && path[0] in children {
        FilePathsAreFiles(children[path[0]], path[1..]);
        assert path == [path[0]] + path[1..];
      }
  }

  /** Filtering level by level leaves out exactly the files whose whole path is ignored. */
  lemma {:induction false} FilterDropsIgnoredPaths(t: Tree, path: Path)
    ensures Lookup(Filter(t), path) == if Ignored(path) then None else Lookup(t, path)
    decreases |path|
  {
    match t
    case File(_) =>
      if Ignored(path) { assert path != []; }
    case Dir(children) =>
      if path != [] && path[0] in children {
        FilterDropsIgnoredPaths(children[path[0]], path[1..]);
        IgnoredHeadOrTail(path);
      }
  }

  lemma IgnoredHeadOrTail(path: Path)
    requires path != []
    ensures Ignored(path) <==> IgnoredName(path[0]) || Ignored(path[1..])
  {
    if i :| 0 <= i < |path| && IgnoredName(path[i]) {
      if i > 0 { assert IgnoredName(path[1..][i - 1]); }
    }
    if i :| 0 <= i < |path[1..]| && IgnoredName(path[1..][i]) {
      assert IgnoredName(path[i + 1]);
    }
  }

  // ---------------------------------------------------------------- digests and diffs

  type Digests = map<Path, string>

  /** `file_digests`: the digest of every file that is not ignored. A missing root has none. */
  function FileDigests(root: Option<Tree>, digest: string -> string): Digests {
    if root.None? then map[]
    else map path | path in FilePaths(root.value) && !Ignored(path) && Lookup(root.value, path).Some? ::
           digest(Lookup(root.value, path).value)
  }

  datatype Diff = Diff(missing: set<Path>, extra: set<Path>, changed: set<Path>)

  function DiffOf(source: Digests, current: Digests): Diff {
    Diff(source.Keys - current.Keys, current.Keys - source.Keys,
         set path | path in source.Keys * current.Keys && source[path] != current[path])
  }

  predicate InSync(d: Diff) {
    d.missing == {} && d.extra == {} && d.changed == {}
  }

  lemma InSyncIsEqualDigests(source: Digests, current: Digests)
    ensures InSync(DiffOf(source, current)) <==> source == current
  {
    var d := DiffOf(source, current);
    if InSync(d) {
      assert source.Keys == current.Keys by {
        assert forall p :: p in source.Keys ==> p !in d.missing;
        assert forall p :: p in current.Keys ==> p !in d.extra;
      }
      assert forall p <- source.Keys :: p !in d.changed;
    }
  }

  function FileAt(root: Option<Tree>, path: Path): Option<string> {
    if root.None? || Ignored(path) then None else Lookup(root.value, path)
  }

  /** The check passes exactly when the two roots hold the same files outside ignored paths. */
  lemma InSyncExactlyWhenFilesAgree(source: Option<Tree>, current: Option<Tree>, digest: string -> string)
    requires forall a, b :: digest(a) == digest(b) ==> a == b
    ensures InSync(DiffOf(FileDigests(source, digest), FileDigests(current, digest))) <==>
      forall path :: FileAt(source, path) == FileAt(current, path)
  {
    var a, b := FileDigests(source, digest), FileDigests(current, digest);
    InSyncIsEqualDigests(a, b);
    forall path
      ensures path in a <==> FileAt(source, path).Some?
      ensures path in b <==> FileAt(current, path).Some?
    {
      if source.Some? { FilePathsAreFiles(source.value, path); }
      if current.Some? { FilePathsAreFiles(current.value, path); }
    }
    if a == b {
      forall path ensures FileAt(source, path) == FileAt(current, path) {
        assert path in a <==> path in b;
        if path in a { assert a[path] == b[path]; }
      }
    }
    if forall path :: FileAt(source, path) == FileAt(current, path) {
      forall path ensures path in a <==> path in b {
        assert FileAt(source, path) == FileAt(current, path);
      }
      assert a.Keys == b.Keys;
      forall path <- a ensures a[path] == b[path] {
        assert FileAt(source, path) == FileAt(current, path);
      }
    }
  }

  /** A filtered copy is in sync with what it was copied from, whatever the digest. */
  lemma CopyIsInSync(t: Tree, digest: string -> string)
    ensures InSync(DiffOf(FileDigests(Some(t), digest), FileDigests(Some(Filter(t)), digest)))
  {
    var a, b := FileDigests(Some(t), digest), FileDigests(Some(Filter(t)), digest);
    forall path ensures (path in a <==> path in b) && (path in a ==> a[path] == b[path]) {
      FilePathsAreFiles(t, path);
      FilePathsAreFiles(Filter(t), path);
      FilterDropsIgnoredPaths(t, path);
    }
    assert a.Keys == b.Keys;
    InSyncIsEqualDigests(a, b);
  }

  /** Nothing ignored is ever copied. */
  lemma CopyHoldsNothingIgnored(t: Tree, path: Path)
    requires Ignored(path)
    ensures path !in FilePaths(Filter(t))
  {
    FilePathsAreFiles(Filter(t), path);
    FilterDropsIgnoredPaths(t, path);
  }

  /** The names left out, written out: four of them, and whatever ends in ".pyc". */
  lemma IgnoredNamesAre(name: string)
    ensures IgnoredName(name) <==>
      || name == ".DS_Store" || name == ".pytest_cache" || name == ".ruff_cache" || name == "__pycache__"
      || exists stem :: name == stem + ".pyc"
  {
    if |name| >= 4 && name[|name| - 4..] == ".pyc" { assert name == name[..|name| - 4] + ".pyc"; }
    if stem :| name == stem + ".pyc" { assert name[|name| - 4..] == ".pyc"; }
  }
}

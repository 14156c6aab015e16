/**
 * The host filesystem as the sandbox tester sees it through Node's `fs` module:
 * a map from absolute paths to directories and regular files with permission
 * modes, and the six calls the tester makes on it (mkdirSync with and without
 * `recursive`, copyFileSync, chmodSync, writeFileSync of an empty string and
 * rmSync with `recursive` and `force`), plus readFileSync as a function.
 */
module HostFs {
  import opened Wrappers

  /**
   * An absolute host path as its components: "/a/b" is ["a", "b"], the root
   * is []. Components are taken as written: "." and ".." are not resolved,
   * so only paths already in the normal form path.resolve gives are meant.
   */
  type Path = seq<string>

  datatype Entry = Dir(mode: int) | File(data: seq<char>, mode: int)

  type FileSystem = map<Path, Entry>

  /** The errno values the calls below throw (ENOENT, EEXIST, ENOTDIR, EISDIR). */
  datatype FsError =
    | NoEntry(path: Path)
    | AlreadyExists(path: Path)
    | NotADirectory(path: Path)
    | IsADirectory(path: Path)

  /** Mode of a directory made by mkdirSync: 0o777 under the usual umask 022, i.e. 0o755. */
  const DirMode: int := 493
  /** Mode of a file created by writeFileSync or by the confined process: 0o666 under umask 022, i.e. 0o644. */
  const NewFileMode: int := 420

  /** k is p itself or lies somewhere below it. */
  predicate AtOrUnder(k: Path, p: Path) {
    |p| <= |k| && k[..|p|] == p
  }

  function Parent(k: Path): Path
    requires k != []
  {
    k[..|k| - 1]
  }

  function Basename(k: Path): string {
    if k == [] then "" else k[|k| - 1]
  }

  /** The root always exists and is a directory; it is never a key of the map. */
  predicate IsDirAt(fs: FileSystem, p: Path) {
    p == [] || (p in fs && fs[p].Dir?)
  }

  predicate IsFileAt(fs: FileSystem, p: Path) {
    p in fs && fs[p].File?
  }

  /** A tree: every entry hangs off the root or off a directory. */
  predicate WellFormed(fs: FileSystem) {
    forall k :: k in fs ==> k != [] && IsDirAt(fs, k[..|k| - 1])
  }

  /** The non-root prefixes of p: the directories `mkdir -p p` walks through. */
  function Prefixes(p: Path): set<Path> {
    set i | 0 < i <= |p| :: p[..i]
  }

  /** No component of p exists as a regular file, so `mkdir -p p` can succeed. */
  predicate NoFileOnPath(fs: FileSystem, p: Path) {
    forall i | 0 < i <= |p| :: p[..i] !in fs || fs[p[..i]].Dir?
  }

  function WithMode(e: Entry, mode: int): Entry {
    match e
    case Dir(_) => Dir(mode)
    case File(d, _) => File(d, mode)
  }

  lemma PrefixesStep(p: Path, i: nat)
    requires i < |p|
    ensures Prefixes(p[..i + 1]) == Prefixes(p[..i]) + {p[..i + 1]}
  {
    var q := p[..i + 1];
    forall x | x in Prefixes(q) ensures x in Prefixes(p[..i]) + {q} {
      var j :| 0 < j <= |q| && x == q[..j];
      if j <= i { assert x == p[..i][..j]; } else { assert x == q; }
    }
    forall x | x in Prefixes(p[..i]) ensures x in Prefixes(q) {
      var j :| 0 < j <= i && x == p[..i][..j];
      assert x == q[..j];
    }
    assert q == q[..|q|];
  }

  /** In a tree, an entry that is absent has nothing below it. */
  lemma {:induction false} AbsentHasNoDescendant(fs: FileSystem, q: Path, k: Path)
    requires WellFormed(fs) && q != [] && q !in fs && k in fs
    ensures !AtOrUnder(k, q)
    decreases |k|
  {
    if AtOrUnder(k, q) {
      var p := k[..|k| - 1];
      assert k != q;
      assert p[..|q|] == k[..|q|];
      AbsentHasNoDescendant(fs, q, p);
    }
  }

  /** In a tree, every proper ancestor of an entry is a directory. */
  lemma {:induction false} AncestorsAreDirs(fs: FileSystem, k: Path, i: nat)
    requires WellFormed(fs) && k in fs && 0 < i < |k|
    ensures k[..i] in fs && fs[k[..i]].Dir?
    decreases |k| - i
  {
    var p := k[..|k| - 1];
    if i < |p| {
      AncestorsAreDirs(fs, p, i);
      assert p[..i] == k[..i];
    }
  }

  /** The filesystem after `mkdir -p p` succeeds: missing components become directories. */
  function WithAncestry(fs: FileSystem, p: Path): (r: FileSystem)
    ensures r.Keys == fs.Keys + Prefixes(p)
    ensures forall k :: k in fs ==> r[k] == fs[k]
    ensures forall k :: k in r && k !in fs ==> r[k] == Dir(DirMode)
  {
    (map k | k in Prefixes(p) :: Dir(DirMode)) + fs
  }

  /** `mkdir -p p` keeps the tree a tree, and p is a directory afterwards. */
  lemma WithAncestryWellFormed(fs: FileSystem, p: Path)
    requires WellFormed(fs) && NoFileOnPath(fs, p)
    ensures WellFormed(WithAncestry(fs, p)) && IsDirAt(WithAncestry(fs, p), p)
  {
    var r := WithAncestry(fs, p);
    forall k | k in r ensures k != [] && IsDirAt(r, k[..|k| - 1]) {
      if k !in fs {
        var i :| 0 < i <= |p| && k == p[..i];
        if i > 1 {
          assert k[..|k| - 1] == p[..i - 1];
          assert p[..i - 1] in Prefixes(p);
        }
      }
    }
    if p != [] { assert p == p[..|p|]; }
  }

  /** The filesystem after `rm -rf p`. */
  function Pruned(fs: FileSystem, p: Path): (r: FileSystem)
    ensures forall k :: k in r <==> k in fs && !AtOrUnder(k, p)
    ensures forall k :: k in r ==> r[k] == fs[k]
  {
    fs - (set k | k in fs && AtOrUnder(k, p))
  }

  /** Removing a whole subtree leaves a tree. */
  lemma PrunedWellFormed(fs: FileSystem, p: Path)
    requires WellFormed(fs)
    ensures WellFormed(Pruned(fs, p))
  {
    var r := Pruned(fs, p);
    forall k | k in r ensures k != [] && IsDirAt(r, k[..|k| - 1]) {
      var q := k[..|k| - 1];
      assert q != [] ==> q in fs;
    }
  }

  /** Putting an entry under an existing directory keeps the tree a tree, unless a file replaces a directory. */
  lemma PutWellFormed(fs: FileSystem, p: Path, e: Entry)
    requires WellFormed(fs) && p != [] && IsDirAt(fs, p[..|p| - 1])
    requires e.File? ==> !(p in fs && fs[p].Dir?)
    ensures WellFormed(fs[p := e])
  {
    var r := fs[p := e];
    forall k | k in r ensures k != [] && IsDirAt(r, k[..|k| - 1]) {
      var q := k[..|k| - 1];
      if k != p && q == p {
        assert fs[p].Dir?;
      }
    }
  }

  /** Where a process may create or overwrite the regular file t. */
  predicate Placeable(fs: FileSystem, t: Path) {
    t != [] && IsDirAt(fs, t[..|t| - 1]) && !(t in fs && fs[t].Dir?)
  }

  /**
   * The regular files a process leaves behind after writing `writes` (paths
   * relative to `base`). A write whose directory does not exist, or whose
   * target is a directory, cannot happen and is dropped; an overwritten file
   * keeps its mode.
   */
  function Written(fs: FileSystem, base: Path, writes: map<Path, seq<char>>): (w: FileSystem)
    ensures forall t :: t in w <==> AtOrUnder(t, base) && t[|base|..] in writes && Placeable(fs, t)
    ensures forall t :: t in w ==> |base| <= |t| && w[t] == File(writes[t[|base|..]], if t in fs then fs[t].mode else NewFileMode)
  {
    var targets := set k | k in writes && Placeable(fs, base + k) :: base + k;
    assert forall t :: t in targets <==> |base| <= |t| && t[..|base|] == base && t[|base|..] in writes && Placeable(fs, t) by {
      forall t | |base| <= |t| && t[..|base|] == base && t[|base|..] in writes && Placeable(fs, t) ensures t in targets {
        assert t == base + t[|base|..];
      }
    }
    map t | t in targets :: File(writes[t[|base|..]], if t in fs then fs[t].mode else NewFileMode)
  }

  /** The filesystem after a process wrote the regular files `writes` under `base`. */
  function Overlay(fs: FileSystem, base: Path, writes: map<Path, seq<char>>): (r: FileSystem)
    ensures forall k :: k in fs ==> k in r
    ensures forall k :: k in r && k !in fs ==> AtOrUnder(k, base)
    ensures forall k :: k in fs && (!AtOrUnder(k, base) || fs[k].Dir?) ==> r[k] == fs[k]
  {
    fs + Written(fs, base, writes)
  }

  /** Every write that can happen does happen, and the tree stays a tree. */
  lemma OverlayWrites(fs: FileSystem, base: Path, writes: map<Path, seq<char>>)
    requires WellFormed(fs)
    ensures WellFormed(Overlay(fs, base, writes))
    ensures forall k :: k in writes && Placeable(fs, base + k) ==>
      var r := Overlay(fs, base, writes); base + k in r && r[base + k] == File(writes[k], if base + k in fs then fs[base + k].mode else NewFileMode)
  {
    var r, w := Overlay(fs, base, writes), Written(fs, base, writes);
    forall k | k in writes && Placeable(fs, base + k)
      ensures base + k in r && r[base + k] == File(writes[k], if base + k in fs then fs[base + k].mode else NewFileMode)
    {
      assert (base + k)[..|base|] == base && (base + k)[|base|..] == k;
    }
    forall k | k in r ensures k != [] && IsDirAt(r, k[..|k| - 1]) {
      var q := k[..|k| - 1];
      if q != [] {
        assert q in fs && fs[q].Dir?;
        assert q !in w;
      }
    }
  }

  /**
   * At a place the process may write to, the file afterwards holds what it
   * wrote there (a new file with mode 0o644, an old one keeping its mode),
   * or, where it wrote nothing, what was there before.
   */
  lemma OverlayAt(fs: FileSystem, base: Path, writes: map<Path, seq<char>>, k: Path)
    requires Placeable(fs, base + k)
    ensures var r, t := Overlay(fs, base, writes), base + k;
      && (t in r <==> k in writes || t in fs)
      && (k in writes ==> r[t] == File(writes[k], if t in fs then fs[t].mode else NewFileMode))
      && (k !in writes && t in fs ==> r[t] == fs[t])
  {
    assert (base + k)[..|base|] == base && (base + k)[|base|..] == k;
  }

  /** readFileSync: the text of a regular file, None where it throws (missing file, directory). */
  function ReadText(fs: FileSystem, p: Path): (r: Option<seq<char>>)
    ensures r.Some? <==> IsFileAt(fs, p)
    ensures r.Some? ==> r.value == fs[p].data
  {
    if IsFileAt(fs, p) then Some(fs[p].data) else None
  }

  /** copyFileSync can copy src onto dst. */
  predicate CanCopy(fs: FileSystem, src: Path, dst: Path) {
    IsFileAt(fs, src) && dst != [] && IsDirAt(fs, dst[..|dst| - 1]) && !(dst in fs && fs[dst].Dir?)
  }

  /** One more component of `mkdir -p`: it is created when missing, and must not be a file. */
  lemma AncestryStep(fs: FileSystem, p: Path, i: nat)
    requires i < |p|
    ensures var q, cur := p[..i + 1], WithAncestry(fs, p[..i]);
      && (q in cur <==> q in fs)
      && (q in fs ==> WithAncestry(fs, p[..i + 1]) == cur)
      && (q !in fs ==> WithAncestry(fs, p[..i + 1]) == cur[q := Dir(DirMode)])
      && (NoFileOnPath(fs, p[..i]) && (q !in fs || fs[q].Dir?) ==> NoFileOnPath(fs, p[..i + 1]))
  {
    var q := p[..i + 1];
    PrefixesStep(p, i);
    assert q !in Prefixes(p[..i]);
    forall j | 0 < j <= i + 1 ensures q[..j] == (if j <= i then p[..i][..j] else q) { }
  }

  /** When `mkdir -p` meets a file at component i + 1, every component above it already existed. */
  lemma NothingAboveFileIsCreated(fs: FileSystem, p: Path, i: nat)
    requires WellFormed(fs) && i < |p| && p[..i + 1] in fs && fs[p[..i + 1]].File?
    ensures WithAncestry(fs, p[..i]) == fs
    ensures !NoFileOnPath(fs, p)
  {
    var q := p[..i + 1];
    forall x | x in Prefixes(p[..i]) ensures x in fs {
      var j :| 0 < j <= i && x == p[..i][..j];
      AncestorsAreDirs(fs, q, j);
      assert q[..j] == x;
    }
  }

  /** The host's filesystem, changed in place by the fs calls the tester makes. */
  class Host {
    var files: FileSystem

    ghost predicate Valid()
      reads this
    {
      WellFormed(files)
    }

    constructor (initial: FileSystem)
      requires WellFormed(initial)
      ensures Valid() && files == initial
    {
      files := initial;
    }

    /** mkdirSync(p, { recursive: true }): creates every missing component, top down. */
    method MakeDirs(p: Path) returns (res: Outcome<FsError>)
      requires Valid()
      modifies this
      ensures Valid()
      ensures res.Pass? <==> NoFileOnPath(old(files), p)
      ensures files == if res.Pass? then WithAncestry(old(files), p) else old(files)
    {
      var i := 0;
      while i < |p|
        invariant 0 <= i <= |p|
        invariant NoFileOnPath(old(files), p[..i])
        invariant files == WithAncestry(old(files), p[..i])
      {
        var q := p[..i + 1];
        AncestryStep(old(files), p, i);
        if q in files && files[q].File? {
          NothingAboveFileIsCreated(old(files), p, i);
          return Fail(NotADirectory(q));
        }
        if q !in files {
          files := files[q := Dir(DirMode)];
        }
        i := i + 1;
      }
      assert p[..|p|] == p;
      WithAncestryWellFormed(old(files), p);
      res := Pass;
    }

    /** mkdirSync(p): EEXIST when p exists, ENOENT or ENOTDIR when its parent is not a directory. */
    method MakeDir(p: Path) returns (res: Outcome<FsError>)
      requires Valid() && p != []
      modifies this
      ensures Valid()
      ensures res.Pass? <==> p !in old(files) && IsDirAt(old(files), Parent(p))
      ensures files == if res.Pass? then old(files)[p := Dir(DirMode)] else old(files)
    {
      if p in files {
        return Fail(AlreadyExists(p));
      }
      if !IsDirAt(files, Parent(p)) {
        return if Parent(p) in files then Fail(NotADirectory(Parent(p))) else Fail(NoEntry(Parent(p)));
      }
      files := files[p := Dir(DirMode)];
      res := Pass;
    }

    /** copyFileSync(src, dst): the copy carries the source's contents and mode. */
    method CopyFile(src: Path, dst: Path) returns (res: Outcome<FsError>)
      requires Valid()
      modifies this
      ensures Valid()
      ensures res.Pass? <==> CanCopy(old(files), src, dst)
      ensures files == if res.Pass? then old(files)[dst := old(files)[src]] else old(files)
    {
      if src !in files {
        return Fail(NoEntry(src));
      }
      if files[src].Dir? {
        return Fail(IsADirectory(src));
      }
      if dst == [] || !IsDirAt(files, Parent(dst)) {
        return Fail(NoEntry(dst));
      }
      if dst in files && files[dst].Dir? {
        return Fail(IsADirectory(dst));
      }
      files := files[dst := files[src]];
      res := Pass;
    }

    /** chmodSync(p, mode). */
    method Chmod(p: Path, mode: int) returns (res: Outcome<FsError>)
      requires Valid()
      modifies this
      ensures Valid()
      ensures res.Pass? <==> p in old(files)
      ensures files == if res.Pass? then old(files)[p := WithMode(old(files)[p], mode)] else old(files)
    {
      if p !in files {
        return Fail(NoEntry(p));
      }
      files := files[p := WithMode(files[p], mode)];
      res := Pass;
    }

    /** writeFileSync(p, ''): truncates an existing file (keeping its mode) or creates one. */
    method WriteEmpty(p: Path) returns (res: Outcome<FsError>)
      requires Valid()
      modifies this
      ensures Valid()
      ensures res.Pass? <==> Placeable(old(files), p)
      ensures files == if res.Pass? then
          old(files)[p := File([], if p in old(files) then old(files)[p].mode else NewFileMode)]
        else old(files)
    {
      if p == [] || !IsDirAt(files, Parent(p)) {
        return Fail(NoEntry(p));
      }
      if p in files && files[p].Dir? {
        return Fail(IsADirectory(p));
      }
      files := files[p := File([], if p in files then files[p].mode else NewFileMode)];
      res := Pass;
    }

    /** rmSync(p, { recursive: true, force: true }): never throws, removes p and all below it. */
    method Remove(p: Path)
      requires Valid()
      modifies this
      ensures Valid()
      ensures files == Pruned(old(files), p)
    {
      files := Pruned(files, p);
    }
  }
}

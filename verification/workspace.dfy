/**
 * The per-task workspace of the sandbox tester: `<sandboxTmp>/<taskId>` with
 * the two sub-directories `work` (mounted inside the sandbox at /work) and
 * `data` (host-side only, the target of the redirects).
 */
module Workspace {
  import opened HostFs

  /** A task id as crypto.randomBytes(16).toString('hex') spells it: 32 lower-case hex digits. */
  predicate IsTaskId(id: string) {
    |id| == 32 && forall i | 0 <= i < |id| :: id[i] in "0123456789abcdef"
  }

  /** A single path component, which path.resolve(dir, name) appends unchanged. */
  predicate IsSimpleName(name: string) {
    name != "" && name != "." && name != ".." && '/' !in name
  }

  function TaskDir(sandboxTmp: Path, taskId: string): Path {
    sandboxTmp + [taskId]
  }

  function WorkDir(sandboxTmp: Path, taskId: string): Path {
    TaskDir(sandboxTmp, taskId) + ["work"]
  }

  function DataDir(sandboxTmp: Path, taskId: string): Path {
    TaskDir(sandboxTmp, taskId) + ["data"]
  }

  function InWork(sandboxTmp: Path, taskId: string, name: string): Path {
    WorkDir(sandboxTmp, taskId) + [name]
  }

  function InData(sandboxTmp: Path, taskId: string, name: string): Path {
    DataDir(sandboxTmp, taskId) + [name]
  }

  /** The entries at or under dir: what `ls -R dir` would list, dir included. */
  function Under(fs: FileSystem, dir: Path): set<Path> {
    set k | k in fs && AtOrUnder(k, dir)
  }

  /** Putting p adds p to the listing of every directory it lies under, and nothing else. */
  lemma UnderPut(fs: FileSystem, dir: Path, p: Path, e: Entry)
    ensures Under(fs[p := e], dir) == Under(fs, dir) + (if AtOrUnder(p, dir) then {p} else {})
  {
  }

  /** Work and data are siblings: nothing lies under both. */
  lemma WorkDataApart(sandboxTmp: Path, taskId: string, name: string)
    ensures !AtOrUnder(WorkDir(sandboxTmp, taskId) + [name], DataDir(sandboxTmp, taskId))
    ensures !AtOrUnder(DataDir(sandboxTmp, taskId) + [name], WorkDir(sandboxTmp, taskId))
    ensures AtOrUnder(WorkDir(sandboxTmp, taskId) + [name], TaskDir(sandboxTmp, taskId))
    ensures AtOrUnder(DataDir(sandboxTmp, taskId) + [name], TaskDir(sandboxTmp, taskId))
  {
    var w, d, t := WorkDir(sandboxTmp, taskId), DataDir(sandboxTmp, taskId), TaskDir(sandboxTmp, taskId);
    assert (w + [name])[|d| - 1] != d[|d| - 1];
    assert (d + [name])[|w| - 1] != w[|w| - 1];
    assert (w + [name])[..|t|] == t && (d + [name])[..|t|] == t;
  }

  /** Every entry of fs is still in s, unchanged. */
  ghost predicate Keeps(fs: FileSystem, s: FileSystem) {
    forall k :: k in fs ==> k in s && s[k] == fs[k]
  }

  /** a and b agree on everything that is not at or under dir. */
  ghost predicate SameOutside(a: FileSystem, b: FileSystem, dir: Path) {
    forall k :: !AtOrUnder(k, dir) ==> (k in a <==> k in b) && (k in a ==> a[k] == b[k])
  }

  /** Changing an entry inside dir does not change what lies outside it. */
  lemma SameOutsidePut(a: FileSystem, b: FileSystem, dir: Path, p: Path, e: Entry)
    requires SameOutside(a, b, dir) && AtOrUnder(p, dir)
    ensures SameOutside(a[p := e], b, dir)
  {
  }

  /** Removing dir from two filesystems that agree outside it gives the same filesystem. */
  lemma SameOutsidePruned(a: FileSystem, b: FileSystem, dir: Path)
    requires SameOutside(a, b, dir)
    ensures Pruned(a, dir) == Pruned(b, dir)
  {
    assert Pruned(a, dir).Keys == Pruned(b, dir).Keys;
  }

  /** An entry put outside dir survives removing dir. */
  lemma PrunedPut(fs: FileSystem, dir: Path, p: Path, e: Entry)
    requires !AtOrUnder(p, dir)
    ensures Pruned(fs[p := e], dir) == Pruned(fs, dir)[p := e]
  {
    assert Pruned(fs[p := e], dir).Keys == Pruned(fs, dir)[p := e].Keys;
  }

  /** A sandbox's own writes land under the task directory and vanish with it. */
  lemma OverlayPruned(fs: FileSystem, dir: Path, writes: map<Path, seq<char>>)
    ensures Pruned(Overlay(fs, dir, writes), dir) == Pruned(fs, dir)
  {
    SameOutsidePruned(Overlay(fs, dir, writes), fs, dir);
  }
}

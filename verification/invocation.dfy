/**
 * The invocation records the sandbox tester hands to the sandbox engine, one
 * per phase, and the resolution of the caller's optional limits. Everything
 * here is a pure function of its arguments.
 */
module InvocationBuilder {
  import opened Wrappers
  import opened HostFs
  import opened Workspace

  /** A bind mount of a host directory into the sandbox, with a size quota in bytes. */
  datatype Mount = Mount(src: Path, dst: string, limit: int)

  /**
   * The parameter object of startSandbox. `user` is the account name whose
   * uid and gid the engine looks up inside the root filesystem.
   */
  datatype Invocation = Invocation(
    hostname: string,
    chroot: Path,
    mounts: seq<Mount>,
    executable: string,
    parameters: seq<string>,
    environments: seq<string>,
    stdin: Option<Path>,
    stdout: Option<Path>,
    stderr: Option<Path>,
    time: int,
    mountProc: bool,
    redirectBeforeChroot: bool,
    memory: int,
    process: int,
    user: string,
    cgroup: string,
    workingDirectory: string)

  const RootFs: Path := ["opt", "sandbox", "rootfs"]
  const DefaultTimeLimit: int := 1000
  const DefaultMemoryLimit: int := 256
  const CompileTimeLimit: int := 10000
  const CompileMemoryLimit: int := 512
  const MiB: int := 1048576
  /** 102400 * 1024 bytes, i.e. 100 MB. */
  const WorkQuota: int := 104857600
  const SearchPath: string := "PATH=/usr/local/sbin:/usr/local/bin:/usr/sbin:/usr/bin:/sbin:/bin"
  const DevNull: Path := ["dev", "null"]
  const SandboxWork: string := "/work"
  const SandboxProgram: string := "/work/program"

  /** JavaScript truthiness of an optional number: null, undefined and 0 are falsy. */
  predicate Truthy(limit: Option<int>) {
    limit.Some? && limit.value != 0
  }

  /** `timeLimit || config.sandbox.time_limit`, in milliseconds. */
  function EffectiveTime(limit: Option<int>): (ms: int)
    ensures Truthy(limit) ==> ms == limit.value
    ensures !Truthy(limit) ==> ms == DefaultTimeLimit
  {
    if Truthy(limit) then limit.value else DefaultTimeLimit
  }

  /** `(memoryLimit || config.sandbox.memory_limit) * 1024 * 1024`: a whole number of MiB, in bytes. */
  function EffectiveMemory(limit: Option<int>): (bytes: int)
    ensures bytes % MiB == 0
    ensures bytes / MiB == if Truthy(limit) then limit.value else DefaultMemoryLimit
  {
    (if Truthy(limit) then limit.value else DefaultMemoryLimit) * MiB
  }

  /** An absent or non-negative limit always resolves to a positive one; null and 0 resolve alike. */
  lemma ResolvedLimitsPositive(limit: Option<int>)
    requires limit.None? || limit.value >= 0
    ensures EffectiveTime(limit) > 0 && EffectiveMemory(limit) >= MiB
    ensures limit == Some(0) ==> EffectiveTime(limit) == EffectiveTime(None) && EffectiveMemory(limit) == EffectiveMemory(None)
  {
  }

  /** The shape every invocation of every phase has. */
  predicate Confined(inv: Invocation, workDir: Path) {
    && inv.chroot == RootFs
    && inv.mounts == [Mount(workDir, SandboxWork, WorkQuota)]
    && inv.environments == [SearchPath]
    && inv.mountProc
    && inv.redirectBeforeChroot
    && inv.workingDirectory == SandboxWork
  }

  predicate RedirectOutside(target: Option<Path>, dir: Path) {
    target.Some? ==> !AtOrUnder(target.value, dir)
  }

  /** No redirect target lies at or under dir. */
  predicate RedirectsOutside(inv: Invocation, dir: Path) {
    RedirectOutside(inv.stdin, dir) && RedirectOutside(inv.stdout, dir) && RedirectOutside(inv.stderr, dir)
  }

  /** g++ as root, 64 processes, 10 s and 512 MiB, only stderr captured, to data/error.txt. */
  function CompileInvocation(taskId: string, workDir: Path, dataDir: Path, sourceName: string): (inv: Invocation)
    ensures Confined(inv, workDir)
    ensures inv.user == "root" && inv.process == 64
    ensures inv.hostname == "chiko-compiler-" + taskId && inv.cgroup == "compiler-" + taskId
    ensures inv.time == CompileTimeLimit && inv.memory == CompileMemoryLimit * MiB
    ensures inv.executable == "g++"
    ensures inv.parameters == ["g++", sourceName, "-o", "program", "-O2", "-std=c++17", "-Wall"]
    ensures inv.stdin.None? && inv.stdout.None? && inv.stderr == Some(dataDir + ["error.txt"])
  {
    Invocation(
      hostname := "chiko-compiler-" + taskId,
      chroot := RootFs,
      mounts := [Mount(workDir, SandboxWork, WorkQuota)],
      executable := "g++",
      parameters := ["g++", sourceName, "-o", "program", "-O2", "-std=c++17", "-Wall"],
      environments := [SearchPath],
      stdin := None,
      stdout := None,
      stderr := Some(dataDir + ["error.txt"]),
      time := CompileTimeLimit,
      mountProc := true,
      redirectBeforeChroot := true,
      memory := CompileMemoryLimit * MiB,
      process := 64,
      user := "root",
      cgroup := "compiler-" + taskId,
      workingDirectory := SandboxWork)
  }

  /** The candidate's run: /work/program as `sandbox`, one process, the caller's limits or the defaults. */
  function RunInvocation(taskId: string, workDir: Path, stdin: Path, stdout: Path, stderr: Path,
                         timeLimit: Option<int>, memoryLimit: Option<int>): (inv: Invocation)
    ensures Confined(inv, workDir)
    ensures inv.user == "sandbox" && inv.process == 1
    ensures inv.hostname == "chiko-runner-" + taskId && inv.cgroup == "runner-" + taskId
    ensures inv.time == EffectiveTime(timeLimit) && inv.memory == EffectiveMemory(memoryLimit)
    ensures inv.executable == SandboxProgram && inv.parameters == [SandboxProgram]
    ensures inv.stdin == Some(stdin) && inv.stdout == Some(stdout) && inv.stderr == Some(stderr)
  {
    Invocation(
      hostname := "chiko-runner-" + taskId,
      chroot := RootFs,
      mounts := [Mount(workDir, SandboxWork, WorkQuota)],
      executable := SandboxProgram,
      parameters := [SandboxProgram],
      environments := [SearchPath],
      stdin := Some(stdin),
      stdout := Some(stdout),
      stderr := Some(stderr),
      time := EffectiveTime(timeLimit),
      mountProc := true,
      redirectBeforeChroot := true,
      memory := EffectiveMemory(memoryLimit),
      process := 1,
      user := "sandbox",
      cgroup := "runner-" + taskId,
      workingDirectory := SandboxWork)
  }

  /** runWithStdIO: the three standard streams bound to data/input.txt, data/output.txt, data/error.txt. */
  function StdIOInvocation(taskId: string, workDir: Path, dataDir: Path,
                           timeLimit: Option<int>, memoryLimit: Option<int>): (inv: Invocation)
    ensures inv.stdin == Some(dataDir + ["input.txt"])
    ensures inv.stdout == Some(dataDir + ["output.txt"])
    ensures inv.stderr == Some(dataDir + ["error.txt"])
  {
    RunInvocation(taskId, workDir, dataDir + ["input.txt"], dataDir + ["output.txt"], dataDir + ["error.txt"],
                  timeLimit, memoryLimit)
  }

  /** runWithFileIO: stdin and stdout bound to /dev/null, only stderr captured. */
  function FileIOInvocation(taskId: string, workDir: Path, dataDir: Path,
                            timeLimit: Option<int>, memoryLimit: Option<int>): (inv: Invocation)
    ensures inv.stdin == Some(DevNull) && inv.stdout == Some(DevNull)
    ensures inv.stderr == Some(dataDir + ["error.txt"])
  {
    RunInvocation(taskId, workDir, DevNull, DevNull, dataDir + ["error.txt"], timeLimit, memoryLimit)
  }

  /** data/<name> is never inside work/, and neither is /dev/null. */
  lemma DataIsNotInWork(sandboxTmp: Path, taskId: string, name: string)
    ensures !AtOrUnder(InData(sandboxTmp, taskId, name), WorkDir(sandboxTmp, taskId))
    ensures !AtOrUnder(DevNull, WorkDir(sandboxTmp, taskId))
  {
    var w, d, x := WorkDir(sandboxTmp, taskId), DataDir(sandboxTmp, taskId), InData(sandboxTmp, taskId, name);
    assert x[..|w|] == d;
    assert d[|d| - 1] == "data" && w[|w| - 1] == "work";
    assert |w| >= 2 && DevNull[1] == "null";
  }

  /** In all three phases, no redirect ever lands inside the quota-limited work/ mount. */
  lemma NoRedirectIntoWork(sandboxTmp: Path, taskId: string, sourceName: string,
                           timeLimit: Option<int>, memoryLimit: Option<int>)
    ensures var w, d := WorkDir(sandboxTmp, taskId), DataDir(sandboxTmp, taskId);
      && RedirectsOutside(CompileInvocation(taskId, w, d, sourceName), w)
      && RedirectsOutside(StdIOInvocation(taskId, w, d, timeLimit, memoryLimit), w)
      && RedirectsOutside(FileIOInvocation(taskId, w, d, timeLimit, memoryLimit), w)
  {
    DataIsNotInWork(sandboxTmp, taskId, "input.txt");
    DataIsNotInWork(sandboxTmp, taskId, "output.txt");
    DataIsNotInWork(sandboxTmp, taskId, "error.txt");
  }

  /**
   * Hostnames and cgroups keep tasks apart: two different task ids never
   * share one, and a compiler never shares one with a runner.
   */
  lemma {:induction false} NamesSeparateTasks(id1: string, id2: string, w1: Path, d1: Path, w2: Path, d2: Path, src: string,
                                              in1: Path, out1: Path, err1: Path, t1: Option<int>, m1: Option<int>,
                                              in2: Path, out2: Path, err2: Path, t2: Option<int>, m2: Option<int>)
    ensures var c1, c2 := CompileInvocation(id1, w1, d1, src), CompileInvocation(id2, w2, d2, src);
      var r1, r2 := RunInvocation(id1, w1, in1, out1, err1, t1, m1), RunInvocation(id2, w2, in2, out2, err2, t2, m2);
      && (id1 != id2 ==> c1.cgroup != c2.cgroup && c1.hostname != c2.hostname
                         && r1.cgroup != r2.cgroup && r1.hostname != r2.hostname)
      && c1.cgroup != r2.cgroup && c1.hostname != r2.hostname
  {
    AppendCancels("compiler-", id1, id2);
    AppendCancels("chiko-compiler-", id1, id2);
    AppendCancels("runner-", id1, id2);
    AppendCancels("chiko-runner-", id1, id2);
    assert ("compiler-" + id1)[0] == 'c' && ("runner-" + id2)[0] == 'r';
    assert ("chiko-compiler-" + id1)[6] == 'c' && ("chiko-runner-" + id2)[6] == 'r';
  }

  lemma AppendCancels(p: string, a: string, b: string)
    ensures p + a == p + b ==> a == b
  {
    if p + a == p + b {
      assert a == (p + a)[|p|..] && b == (p + b)[|p|..];
    }
  }
}

/**
 * The three phases of the sandbox tester (compile, runWithStdIO,
 * runWithFileIO). Each creates `<sandboxTmp>/<taskId>/{work,data}`, stages
 * files into it, hands an invocation to the sandbox engine, normalises what
 * comes back and removes the task directory. A thrown error is a `Failure`;
 * the phase then stops where it is and removes nothing.
 */
module SandboxTester {
  import opened Wrappers
  import opened HostFs
  import opened Workspace
  import opened InvocationBuilder
  import opened ResultNormalizer

  /**
   * The engine's answer to one invocation: the raw outcome, or the message of
   * the error startSandbox, getUidAndGidInSandbox or waitForStop threw, and
   * the regular files the confined process and the redirects left behind, by
   * path relative to the task directory (a run that threw part-way may have
   * left some).
   */
  datatype SandboxRun = SandboxRun(outcome: Result<RawOutcome, string>, writes: map<Path, seq<char>>)

  /** startSandbox followed by waitForStop: a run depends on the invocation and on what was staged. */
  type Engine = (Invocation, FileSystem) -> SandboxRun

  /** Why a phase rejects: a Node fs call threw, or the engine did. */
  datatype PhaseError = FsFailed(fs: FsError) | EngineFailed(message: string)

  /** What compile resolves to: the normalised outcome with the compiler's error text attached. */
  datatype CompileResult = CompileResult(result: Measured, error: seq<char>)

  /** What runWithStdIO and runWithFileIO resolve to. */
  datatype RunResult = RunResult(result: Measured, output: seq<char>, error: seq<char>)

  /** 0o755 */
  const ExecMode: int := 493
  /** 0o666 */
  const SharedMode: int := 438
  /** 0o777 */
  const OpenDirMode: int := 511

  // ---------------------------------------------------------------------------
  // Workspace creation (the three mkdirSync calls every phase starts with)

  predicate WorkspaceCreatable(fs: FileSystem, tmp: Path, id: string) {
    NoFileOnPath(fs, TaskDir(tmp, id)) && WorkDir(tmp, id) !in fs && DataDir(tmp, id) !in fs
  }

  function FreshWorkspace(fs: FileSystem, tmp: Path, id: string): FileSystem {
    WithAncestry(fs, TaskDir(tmp, id))[WorkDir(tmp, id) := Dir(DirMode)][DataDir(tmp, id) := Dir(DirMode)]
  }

  /** After `mkdir -p <task>`, the task directory is there and work/ and data/ are as absent as before. */
  lemma TaskDirCreated(fs: FileSystem, tmp: Path, id: string)
    requires WellFormed(fs) && NoFileOnPath(fs, TaskDir(tmp, id))
    ensures var a := WithAncestry(fs, TaskDir(tmp, id));
      && WellFormed(a) && IsDirAt(a, TaskDir(tmp, id))
      && (WorkDir(tmp, id) in a <==> WorkDir(tmp, id) in fs)
      && (DataDir(tmp, id) in a <==> DataDir(tmp, id) in fs)
  {
    WithAncestryWellFormed(fs, TaskDir(tmp, id));
  }

  /**
   * The fresh workspace: work/ and data/ are empty directories, everything
   * already on disk is kept, and outside the task directory the disk only
   * gained the missing ancestors of sandboxTmp.
   */
  lemma FreshWorkspaceShape(fs: FileSystem, tmp: Path, id: string)
    requires WellFormed(fs) && WorkspaceCreatable(fs, tmp, id)
    ensures var s, w, d := FreshWorkspace(fs, tmp, id), WorkDir(tmp, id), DataDir(tmp, id);
      && WellFormed(s)
      && Under(s, w) == {w} && Under(s, d) == {d}
      && s[w] == Dir(DirMode) && s[d] == Dir(DirMode)
      && Keeps(fs, s)
      && SameOutside(s, WithAncestry(fs, tmp), TaskDir(tmp, id))
  {
    FreshWorkspaceWellFormed(fs, tmp, id);
    NothingUnderFreshDir(fs, tmp, id, "work", "data");
    NothingUnderFreshDir(fs, tmp, id, "data", "work");
    AncestryOutsideTaskDir(fs, tmp, id);
    var t, a, w, d := TaskDir(tmp, id), WithAncestry(fs, TaskDir(tmp, id)), WorkDir(tmp, id), DataDir(tmp, id);
    assert w[..|t|] == t && d[..|t|] == t;
    SameOutsidePut(a, WithAncestry(fs, tmp), t, w, Dir(DirMode));
    SameOutsidePut(a[w := Dir(DirMode)], WithAncestry(fs, tmp), t, d, Dir(DirMode));
  }

  lemma FreshWorkspaceWellFormed(fs: FileSystem, tmp: Path, id: string)
    requires WellFormed(fs) && WorkspaceCreatable(fs, tmp, id)
    ensures WellFormed(FreshWorkspace(fs, tmp, id))
  {
    TaskDirCreated(fs, tmp, id);
    var a, w, d := WithAncestry(fs, TaskDir(tmp, id)), WorkDir(tmp, id), DataDir(tmp, id);
    assert w[..|w| - 1] == TaskDir(tmp, id) && d[..|d| - 1] == TaskDir(tmp, id);
    PutWellFormed(a, w, Dir(DirMode));
    PutWellFormed(a[w := Dir(DirMode)], d, Dir(DirMode));
  }

  /** A sub-directory of the task directory that did not exist has nothing below it once created. */
  lemma NothingUnderFreshDir(fs: FileSystem, tmp: Path, id: string, name: string, other: string)
    requires WellFormed(fs) && TaskDir(tmp, id) + [name] !in fs && name != other
    ensures var a, x, y := WithAncestry(fs, TaskDir(tmp, id)), TaskDir(tmp, id) + [name], TaskDir(tmp, id) + [other];
      Under(a[x := Dir(DirMode)][y := Dir(DirMode)], x) == {x}
  {
    var t := TaskDir(tmp, id);
    var x, y := t + [name], t + [other];
    var s := WithAncestry(fs, t)[x := Dir(DirMode)][y := Dir(DirMode)];
    assert x in Under(s, x);
    forall k | k in Under(s, x) ensures k == x {
      if k in fs {
        AbsentHasNoDescendant(fs, x, k);
      } else if k == y {
        assert y[|t|] != x[|t|];
      }
    }
  }

  /** Outside the task directory, `mkdir -p <task>` and `mkdir -p sandboxTmp` agree. */
  lemma AncestryOutsideTaskDir(fs: FileSystem, tmp: Path, id: string)
    ensures SameOutside(WithAncestry(fs, TaskDir(tmp, id)), WithAncestry(fs, tmp), TaskDir(tmp, id))
  {
    var t := TaskDir(tmp, id);
    PrefixesStep(t, |tmp|);
    assert t[..|tmp|] == tmp && t[..|tmp| + 1] == t;
  }

  /** mkdir -p adds only directories: a regular file of the fresh workspace was already on disk. */
  lemma FreshWorkspaceFiles(fs: FileSystem, tmp: Path, id: string, p: Path)
    requires WorkspaceCreatable(fs, tmp, id)
    ensures IsFileAt(FreshWorkspace(fs, tmp, id), p) <==> IsFileAt(fs, p)
    ensures IsFileAt(fs, p) ==> FreshWorkspace(fs, tmp, id)[p] == fs[p]
  {
  }

  /** The three mkdirSync calls that open every phase. */
  method CreateWorkspace(host: Host, sandboxTmp: Path, taskId: string) returns (res: Outcome<FsError>)
    requires host.Valid()
    modifies host
    ensures host.Valid()
    ensures res.Pass? <==> WorkspaceCreatable(old(host.files), sandboxTmp, taskId)
    ensures res.Pass? ==> host.files == FreshWorkspace(old(host.files), sandboxTmp, taskId)
  {
    ghost var fs := host.files;
    res := host.MakeDirs(TaskDir(sandboxTmp, taskId));
    if res.Fail? {
      return;
    }
    TaskDirCreated(fs, sandboxTmp, taskId);
    res := host.MakeDir(WorkDir(sandboxTmp, taskId));
    if res.Fail? {
      return;
    }
    res := host.MakeDir(DataDir(sandboxTmp, taskId));
  }

  /** Outside the task directory, a fresh run leaves the disk as `mkdir -p sandboxTmp` would. */
  lemma CleanupRestores(fs: FileSystem, tmp: Path, id: string, staged: FileSystem)
    requires SameOutside(staged, WithAncestry(fs, tmp), TaskDir(tmp, id))
    requires forall k :: k in fs ==> !AtOrUnder(k, TaskDir(tmp, id))
    ensures Pruned(staged, TaskDir(tmp, id)) == WithAncestry(fs, tmp)
  {
    SameOutsidePruned(staged, WithAncestry(fs, tmp), TaskDir(tmp, id));
    var a := WithAncestry(fs, tmp);
    forall k | k in a ensures !AtOrUnder(k, TaskDir(tmp, id)) {
      if k !in fs {
        var i :| 0 < i <= |tmp| && k == tmp[..i];
      }
    }
    assert Pruned(a, TaskDir(tmp, id)).Keys == a.Keys;
  }

  /** Whatever the sandbox wrote, removing the task directory leaves what `mkdir -p sandboxTmp` would. */
  lemma CleanupAfterRun(fs: FileSystem, tmp: Path, id: string, staged: FileSystem, writes: map<Path, seq<char>>)
    requires SameOutside(staged, WithAncestry(fs, tmp), TaskDir(tmp, id))
    requires forall k :: k in fs ==> !AtOrUnder(k, TaskDir(tmp, id))
    ensures Pruned(Overlay(staged, TaskDir(tmp, id), writes), TaskDir(tmp, id)) == WithAncestry(fs, tmp)
  {
    OverlayPruned(staged, TaskDir(tmp, id), writes);
    CleanupRestores(fs, tmp, id, staged);
  }

  /**
   * startSandbox followed by waitForStop: the engine sees the disk as staged,
   * and its writes land under the task directory.
   */
  method RunSandbox(host: Host, taskDir: Path, inv: Invocation, engine: Engine) returns (run: SandboxRun)
    requires host.Valid()
    modifies host
    ensures host.Valid()
    ensures run == engine(inv, old(host.files))
    ensures host.files == Overlay(old(host.files), taskDir, run.writes)
  {
    run := engine(inv, host.files);
    OverlayWrites(host.files, taskDir, run.writes);
    host.files := Overlay(host.files, taskDir, run.writes);
  }

  /** The compiler's diagnostics: the file's text cut to 1 MiB, or "" when reading it throws. */
  method ReadErrorText(host: Host, errorFile: Path) returns (errorText: seq<char>)
    ensures errorText == CapErrorText(ReadText(host.files, errorFile))
  {
    errorText := "";
    var read := ReadText(host.files, errorFile);
    if read.Some? {
      errorText := read.value;
      if |errorText| > ErrorTextCap {
        errorText := errorText[..ErrorTextCap];
      }
    }
  }

  // ---------------------------------------------------------------------------
  // compile

  function CompileRequest(tmp: Path, id: string, sourceFile: Path): Invocation {
    CompileInvocation(id, WorkDir(tmp, id), DataDir(tmp, id), Basename(sourceFile))
  }

  predicate CompileStageable(fs: FileSystem, tmp: Path, id: string, sourceFile: Path) {
    WorkspaceCreatable(fs, tmp, id) && IsFileAt(fs, sourceFile)
  }

  /** The disk when g++ starts: the source copied (contents and mode) to work/<basename>. */
  function CompileStaged(fs: FileSystem, tmp: Path, id: string, sourceFile: Path): FileSystem
    requires IsFileAt(fs, sourceFile)
  {
    FreshWorkspace(fs, tmp, id)[InWork(tmp, id, Basename(sourceFile)) := fs[sourceFile]]
  }

  /** Before the compiler runs, work/ holds exactly the source and data/ is empty. */
  lemma CompileStagingLayout(fs: FileSystem, tmp: Path, id: string, sourceFile: Path)
    requires WellFormed(fs) && CompileStageable(fs, tmp, id, sourceFile)
    ensures var s, w, d, src := CompileStaged(fs, tmp, id, sourceFile), WorkDir(tmp, id), DataDir(tmp, id),
                                InWork(tmp, id, Basename(sourceFile));
      && WellFormed(s)
      && CanCopy(FreshWorkspace(fs, tmp, id), sourceFile, src)
      && Under(s, w) == {w, src} && Under(s, d) == {d}
      && s[w] == Dir(DirMode) && s[d] == Dir(DirMode)
      && s[src] == fs[sourceFile]
      && SameOutside(s, WithAncestry(fs, tmp), TaskDir(tmp, id))
  {
    var fw, w, d, src := FreshWorkspace(fs, tmp, id), WorkDir(tmp, id), DataDir(tmp, id), InWork(tmp, id, Basename(sourceFile));
    FreshWorkspaceShape(fs, tmp, id);
    WorkDataApart(tmp, id, Basename(sourceFile));
    assert src[..|w|] == w && src[..|src| - 1] == w;
    assert src !in Under(fw, w);
    UnderPut(fw, w, src, fs[sourceFile]);
    UnderPut(fw, d, src, fs[sourceFile]);
    PutWellFormed(fw, src, fs[sourceFile]);
    SameOutsidePut(fw, WithAncestry(fs, tmp), TaskDir(tmp, id), src, fs[sourceFile]);
  }

  /**
   * With a fresh task directory and an output file outside it, compile leaves
   * the disk as it was, plus the ancestors of sandboxTmp, plus, when it
   * succeeded, the binary at outputFile with mode 0o755.
   */
  lemma CompileLeavesOnlyTheBinary(fs: FileSystem, tmp: Path, id: string, sourceFile: Path,
                                   writes: map<Path, seq<char>>, outputFile: Path)
    requires WellFormed(fs) && CompileStageable(fs, tmp, id, sourceFile)
    requires forall k :: k in fs ==> !AtOrUnder(k, TaskDir(tmp, id))
    requires !AtOrUnder(outputFile, TaskDir(tmp, id))
    ensures var ran := Overlay(CompileStaged(fs, tmp, id, sourceFile), TaskDir(tmp, id), writes);
            var prog := InWork(tmp, id, "program");
      && Pruned(ran, TaskDir(tmp, id)) == WithAncestry(fs, tmp)
      && (prog in ran ==>
            Pruned(ran[outputFile := WithMode(ran[prog], ExecMode)], TaskDir(tmp, id))
              == WithAncestry(fs, tmp)[outputFile := WithMode(ran[prog], ExecMode)])
  {
    var t := TaskDir(tmp, id);
    var staged := CompileStaged(fs, tmp, id, sourceFile);
    CompileStagingLayout(fs, tmp, id, sourceFile);
    CleanupAfterRun(fs, tmp, id, staged, writes);
    var ran := Overlay(staged, t, writes);
    var prog := InWork(tmp, id, "program");
    if prog in ran {
      PrunedPut(ran, t, outputFile, WithMode(ran[prog], ExecMode));
    }
  }

  /** copyFileSync followed by chmodSync(0o755): the binary keeps its contents and becomes executable. */
  method CopyExecutable(host: Host, program: Path, outputFile: Path) returns (res: Outcome<FsError>)
    requires host.Valid()
    modifies host
    ensures host.Valid()
    ensures res.Pass? <==> CanCopy(old(host.files), program, outputFile)
    ensures host.files == if res.Pass? then old(host.files)[outputFile := WithMode(old(host.files)[program], ExecMode)]
                          else old(host.files)
  {
    res := host.CopyFile(program, outputFile);
    if res.Fail? {
      return;
    }
    res := host.Chmod(outputFile, ExecMode);
    assert res.Pass?;
  }

  /**
   * compile(sourceFile, outputFile). It rejects with an fs error when the
   * workspace cannot be created or the source cannot be copied in; with the
   * engine's error, leaving the task directory behind, when the engine throws;
   * and with an fs error, again leaving the task directory, when a successful
   * build cannot be copied out. On a normal return the task directory is gone;
   * outputFile holds work/program with mode 0o755 exactly when the outcome has
   * status 1 and code 0; the error text is the capped contents of
   * data/error.txt.
   */
  method Compile(host: Host, sandboxTmp: Path, taskId: string, sourceFile: Path, outputFile: Path, engine: Engine)
    returns (r: Result<CompileResult, PhaseError>, ghost staged: FileSystem, ghost ran: FileSystem)
    requires host.Valid() && IsTaskId(taskId)
    modifies host
    ensures host.Valid()
    ensures !CompileStageable(old(host.files), sandboxTmp, taskId, sourceFile) ==> r.Failure? && r.error.FsFailed?
    ensures CompileStageable(old(host.files), sandboxTmp, taskId, sourceFile) ==>
      var run := engine(CompileRequest(sandboxTmp, taskId, sourceFile), staged);
      && staged == CompileStaged(old(host.files), sandboxTmp, taskId, sourceFile)
      && ran == Overlay(staged, TaskDir(sandboxTmp, taskId), run.writes)
      && (run.outcome.Failure? ==> r == Failure(EngineFailed(run.outcome.error)) && host.files == ran)
      && (r.Failure? && run.outcome.Success? ==>
            && Succeeded(run.outcome.value)
            && !CanCopy(ran, InWork(sandboxTmp, taskId, "program"), outputFile)
            && r.error.FsFailed? && host.files == ran)
    ensures r.Success? ==>
      var out := engine(CompileRequest(sandboxTmp, taskId, sourceFile), staged).outcome;
      && CompileStageable(old(host.files), sandboxTmp, taskId, sourceFile) && out.Success?
      && r.value == CompileResult(Normalize(out.value), CapErrorText(ReadText(ran, InData(sandboxTmp, taskId, "error.txt"))))
      && (Succeeded(out.value) ==>
            && CanCopy(ran, InWork(sandboxTmp, taskId, "program"), outputFile)
            && host.files == Pruned(ran[outputFile := WithMode(ran[InWork(sandboxTmp, taskId, "program")], ExecMode)],
                                    TaskDir(sandboxTmp, taskId)))
      && (!Succeeded(out.value) ==> host.files == Pruned(ran, TaskDir(sandboxTmp, taskId)))
  {
    ghost var fs := host.files;
    staged, ran := map[], map[];
    var sandboxDir := TaskDir(sandboxTmp, taskId);
    var workDir := WorkDir(sandboxTmp, taskId);
    var dataDir := DataDir(sandboxTmp, taskId);

    var o := CreateWorkspace(host, sandboxTmp, taskId);
    if o.Fail? {
      return Failure(FsFailed(o.error)), staged, ran;
    }

    var sourceFileName := Basename(sourceFile);
    FreshWorkspaceFiles(fs, sandboxTmp, taskId, sourceFile);
    if IsFileAt(fs, sourceFile) {
      CompileStagingLayout(fs, sandboxTmp, taskId, sourceFile);
    }
    o := host.CopyFile(sourceFile, workDir + [sourceFileName]);
    if o.Fail? {
      return Failure(FsFailed(o.error)), staged, ran;
    }
    staged := host.files;
    CompileStagingLayout(fs, sandboxTmp, taskId, sourceFile);

    var run := RunSandbox(host, sandboxDir, CompileInvocation(taskId, workDir, dataDir, sourceFileName), engine);
    ran := host.files;
    if run.outcome.Failure? {
      return Failure(EngineFailed(run.outcome.error)), staged, ran;
    }
    var errorText := ReadErrorText(host, dataDir + ["error.txt"]);

    if run.outcome.value.status == 1 && run.outcome.value.code == 0 {
      o := CopyExecutable(host, workDir + ["program"], outputFile);
      if o.Fail? {
        return Failure(FsFailed(o.error)), staged, ran;
      }
    }

    var result := Normalize(run.outcome.value);
    host.Remove(sandboxDir);
    PrunedWellFormed(old(host.files), sandboxDir);
    r := Success(CompileResult(result, errorText));
  }

  // ---------------------------------------------------------------------------
  // runWithStdIO and runWithFileIO

  /** Both run phases need a fresh workspace, an executable, and an input that is a regular file by the time it is copied. */
  predicate RunStageable(fs: FileSystem, tmp: Path, id: string, exe: Path, input: Path) {
    && WorkspaceCreatable(fs, tmp, id)
    && IsFileAt(fs, exe)
    && (IsFileAt(fs, input) || input == InWork(tmp, id, "program"))
  }

  /** The fresh workspace with the executable copied to work/program and made 0o755. */
  function WithProgram(fs: FileSystem, tmp: Path, id: string, exe: Path): FileSystem
    requires IsFileAt(fs, exe)
  {
    FreshWorkspace(fs, tmp, id)[InWork(tmp, id, "program") := WithMode(fs[exe], ExecMode)]
  }

  /** What staging the program leaves: work/ holds exactly the program, data/ is empty, nothing else changed. */
  lemma ProgramStaged(fs: FileSystem, tmp: Path, id: string, exe: Path)
    requires WellFormed(fs) && WorkspaceCreatable(fs, tmp, id) && IsFileAt(fs, exe)
    ensures var s, w, d, prog := WithProgram(fs, tmp, id, exe), WorkDir(tmp, id), DataDir(tmp, id), InWork(tmp, id, "program");
      && CanCopy(FreshWorkspace(fs, tmp, id), exe, prog)
      && WellFormed(s)
      && Under(s, w) == {w, prog} && Under(s, d) == {d}
      && s[w] == Dir(DirMode) && s[d] == Dir(DirMode)
      && s[prog] == File(fs[exe].data, ExecMode)
      && Keeps(fs, s)
      && SameOutside(s, WithAncestry(fs, tmp), TaskDir(tmp, id))
  {
    var fw, w, d, prog := FreshWorkspace(fs, tmp, id), WorkDir(tmp, id), DataDir(tmp, id), InWork(tmp, id, "program");
    var e := WithMode(fs[exe], ExecMode);
    FreshWorkspaceShape(fs, tmp, id);
    WorkDataApart(tmp, id, "program");
    assert prog[..|prog| - 1] == w;
    assert prog !in Under(fw, w);
    UnderPut(fw, w, prog, e);
    UnderPut(fw, d, prog, e);
    PutWellFormed(fw, prog, e);
    SameOutsidePut(fw, WithAncestry(fs, tmp), TaskDir(tmp, id), prog, e);
    if prog in fs { FreshWorkspaceFiles(fs, tmp, id, prog); }
  }

  function StdIORequest(tmp: Path, id: string, timeLimit: Option<int>, memoryLimit: Option<int>): Invocation {
    StdIOInvocation(id, WorkDir(tmp, id), DataDir(tmp, id), timeLimit, memoryLimit)
  }

  /**
   * The disk when the program starts under runWithStdIO: work/program, and
   * in data/ a copy of the input plus empty output.txt and error.txt with
   * mode 0o666.
   */
  function StdIOStaged(fs: FileSystem, tmp: Path, id: string, exe: Path, input: Path): FileSystem
    requires IsFileAt(fs, exe) && (IsFileAt(fs, input) || input == InWork(tmp, id, "program"))
  {
    var s := WithProgram(fs, tmp, id, exe);
    s[InData(tmp, id, "input.txt") := s[input]]
     [InData(tmp, id, "output.txt") := File([], SharedMode)]
     [InData(tmp, id, "error.txt") := File([], SharedMode)]
  }

  /** Before the program runs, work/ holds only the program and data/ only the three stream files. */
  lemma StdIOStagingLayout(fs: FileSystem, tmp: Path, id: string, exe: Path, input: Path)
    requires WellFormed(fs) && RunStageable(fs, tmp, id, exe, input)
    ensures var s, w, d, prog := StdIOStaged(fs, tmp, id, exe, input), WorkDir(tmp, id), DataDir(tmp, id), InWork(tmp, id, "program");
            var inTxt, outTxt, errTxt := InData(tmp, id, "input.txt"), InData(tmp, id, "output.txt"), InData(tmp, id, "error.txt");
      && CanCopy(WithProgram(fs, tmp, id, exe), input, inTxt)
      && WellFormed(s)
      && Under(s, w) == {w, prog} && Under(s, d) == {d, inTxt, outTxt, errTxt}
      && SameOutside(s, WithAncestry(fs, tmp), TaskDir(tmp, id))
  {
    var wp := WithProgram(fs, tmp, id, exe);
    var d := DataDir(tmp, id);
    StdIOStagedSteps(fs, tmp, id, exe, input);
    var inTxt, outTxt, errTxt := InData(tmp, id, "input.txt"), InData(tmp, id, "output.txt"), InData(tmp, id, "error.txt");
    ProgramStaged(fs, tmp, id, exe);
    assert Staging(fs, tmp, id, wp);
    assert inTxt !in Under(wp, d);
    PutInData(fs, tmp, id, wp, "input.txt", wp[input]);
    StreamsStaged(fs, tmp, id, wp[inTxt := wp[input]]);
  }

  /**
   * What the program finds: itself as an executable copy, the input's bytes
   * in data/input.txt (its own bytes when the input is work/program) and two
   * empty files for its output and errors.
   */
  lemma StdIOStagedContents(fs: FileSystem, tmp: Path, id: string, exe: Path, input: Path)
    requires RunStageable(fs, tmp, id, exe, input)
    ensures var s, prog := StdIOStaged(fs, tmp, id, exe, input), InWork(tmp, id, "program");
            var inTxt, outTxt, errTxt := InData(tmp, id, "input.txt"), InData(tmp, id, "output.txt"), InData(tmp, id, "error.txt");
      && s[prog] == File(fs[exe].data, ExecMode)
      && s[inTxt].File? && s[inTxt].data == (if input == prog then fs[exe].data else fs[input].data)
      && s[outTxt] == File([], SharedMode) && s[errTxt] == File([], SharedMode)
  {
    var prog := InWork(tmp, id, "program");
    StdIOStagedSteps(fs, tmp, id, exe, input);
    WorkDataApart(tmp, id, "program");
    DataNamesApart(tmp, id, "input.txt", "output.txt");
    DataNamesApart(tmp, id, "input.txt", "error.txt");
    DataNamesApart(tmp, id, "output.txt", "error.txt");
    assert prog[..|DataDir(tmp, id)|] != DataDir(tmp, id);
    if input != prog {
      FreshWorkspaceFiles(fs, tmp, id, input);
    }
  }

  lemma StdIOStagedSteps(fs: FileSystem, tmp: Path, id: string, exe: Path, input: Path)
    requires IsFileAt(fs, exe) && (IsFileAt(fs, input) || input == InWork(tmp, id, "program"))
    ensures var wp := WithProgram(fs, tmp, id, exe);
      StdIOStaged(fs, tmp, id, exe, input)
      == wp[InData(tmp, id, "input.txt") := wp[input]][InData(tmp, id, "output.txt") := File([], SharedMode)][InData(tmp, id, "error.txt") := File([], SharedMode)]
  {
  }

  /** Adding the empty output.txt and error.txt next to input.txt. */
  lemma StreamsStaged(fs: FileSystem, tmp: Path, id: string, s: FileSystem)
    requires Staging(fs, tmp, id, s)
    requires Under(s, DataDir(tmp, id)) == {DataDir(tmp, id), InData(tmp, id, "input.txt")}
    ensures var d, outTxt, errTxt := DataDir(tmp, id), InData(tmp, id, "output.txt"), InData(tmp, id, "error.txt");
            var s' := s[outTxt := File([], SharedMode)][errTxt := File([], SharedMode)];
      && Staging(fs, tmp, id, s')
      && Under(s', WorkDir(tmp, id)) == Under(s, WorkDir(tmp, id))
      && Under(s', d) == {d, InData(tmp, id, "input.txt"), outTxt, errTxt}
  {
    var d, outTxt := DataDir(tmp, id), InData(tmp, id, "output.txt");
    DataNamesApart(tmp, id, "input.txt", "output.txt");
    DataNamesApart(tmp, id, "input.txt", "error.txt");
    DataNamesApart(tmp, id, "output.txt", "error.txt");
    PutInData(fs, tmp, id, s, "output.txt", File([], SharedMode));
    PutInData(fs, tmp, id, s[outTxt := File([], SharedMode)], "error.txt", File([], SharedMode));
  }

  /** Different names give different entries of data/, and none of them is data/ itself. */
  lemma DataNamesApart(tmp: Path, id: string, a: string, b: string)
    requires a != b
    ensures InData(tmp, id, a) != InData(tmp, id, b)
    ensures InData(tmp, id, a) != DataDir(tmp, id) && InData(tmp, id, b) != DataDir(tmp, id)
  {
    assert InData(tmp, id, a)[|DataDir(tmp, id)|] == a;
  }

  /** The invariant of staging inside a fresh workspace: a well-formed tree, data/ a directory, nothing outside the task directory touched. */
  ghost predicate Staging(fs: FileSystem, tmp: Path, id: string, s: FileSystem) {
    && WellFormed(s)
    && IsDirAt(s, DataDir(tmp, id))
    && SameOutside(s, WithAncestry(fs, tmp), TaskDir(tmp, id))
  }

  /** Putting a regular file into data/ changes the listing of data/ and nothing else that matters. */
  lemma PutInData(fs: FileSystem, tmp: Path, id: string, s: FileSystem, name: string, e: Entry)
    requires Staging(fs, tmp, id, s) && e.File?
    requires InData(tmp, id, name) !in Under(s, DataDir(tmp, id))
    ensures var s', p := s[InData(tmp, id, name) := e], InData(tmp, id, name);
      && Staging(fs, tmp, id, s')
      && Under(s', WorkDir(tmp, id)) == Under(s, WorkDir(tmp, id))
      && Under(s', DataDir(tmp, id)) == Under(s, DataDir(tmp, id)) + {p}
      && SameOutside(s', WithAncestry(fs, tmp), TaskDir(tmp, id))
  {
    var p, d := InData(tmp, id, name), DataDir(tmp, id);
    WorkDataApart(tmp, id, name);
    assert p[..|p| - 1] == d && p[..|d|] == d;
    assert p !in s;
    PutWellFormed(s, p, e);
    UnderPut(s, WorkDir(tmp, id), p, e);
    UnderPut(s, d, p, e);
    SameOutsidePut(s, WithAncestry(fs, tmp), TaskDir(tmp, id), p, e);
  }

  /** After staging the program, the regular files are the old ones plus work/program. */
  lemma ProgramStagedFiles(fs: FileSystem, tmp: Path, id: string, exe: Path, p: Path)
    requires WorkspaceCreatable(fs, tmp, id) && IsFileAt(fs, exe)
    ensures IsFileAt(WithProgram(fs, tmp, id, exe), p) <==> IsFileAt(fs, p) || p == InWork(tmp, id, "program")
  {
    if p != InWork(tmp, id, "program") {
      FreshWorkspaceFiles(fs, tmp, id, p);
    }
  }

  /** copyFileSync(executableFile, work/program) then chmodSync(0o755): throws exactly when the executable is not a regular file. */
  method StageProgram(host: Host, ghost fs: FileSystem, tmp: Path, id: string, exe: Path) returns (res: Outcome<FsError>)
    requires host.Valid() && WellFormed(fs) && WorkspaceCreatable(fs, tmp, id)
    requires host.files == FreshWorkspace(fs, tmp, id)
    modifies host
    ensures host.Valid()
    ensures res.Pass? <==> IsFileAt(fs, exe)
    ensures res.Pass? ==> host.files == WithProgram(fs, tmp, id, exe)
  {
    var prog := InWork(tmp, id, "program");
    FreshWorkspaceFiles(fs, tmp, id, exe);
    if IsFileAt(fs, exe) {
      ProgramStaged(fs, tmp, id, exe);
    }
    res := CopyExecutable(host, exe, prog);
  }

  /** writeFileSync(p, '') then chmodSync(p, 0o666) for output.txt and error.txt, both absent until now. */
  method CreateStreams(host: Host, outTxt: Path, errTxt: Path)
    requires host.Valid() && outTxt != errTxt
    requires Placeable(host.files, outTxt) && outTxt !in host.files
    requires Placeable(host.files, errTxt) && errTxt !in host.files
    requires Parent(errTxt) != outTxt
    modifies host
    ensures host.Valid()
    ensures host.files == old(host.files)[outTxt := File([], SharedMode)][errTxt := File([], SharedMode)]
  {
    ghost var fs := host.files;
    CreateEmpty(host, outTxt, errTxt);
    var o := host.Chmod(outTxt, SharedMode);
    assert o.Pass?;
    o := host.Chmod(errTxt, SharedMode);
    assert o.Pass?;
    Reassigned(fs, outTxt, errTxt, File([], NewFileMode), File([], NewFileMode), File([], SharedMode), File([], SharedMode));
  }

  /** Once the input is copied, output.txt and error.txt can be created next to it. */
  lemma StreamsPlaceable(fs: FileSystem, tmp: Path, id: string, exe: Path, input: Path)
    requires WellFormed(fs) && RunStageable(fs, tmp, id, exe, input)
    ensures var wp := WithProgram(fs, tmp, id, exe);
            var s, outTxt, errTxt := wp[InData(tmp, id, "input.txt") := wp[input]], InData(tmp, id, "output.txt"), InData(tmp, id, "error.txt");
      && outTxt != errTxt && Parent(errTxt) != outTxt
      && Placeable(s, outTxt) && outTxt !in s
      && Placeable(s, errTxt) && errTxt !in s
  {
    var wp, d := WithProgram(fs, tmp, id, exe), DataDir(tmp, id);
    var inTxt, outTxt, errTxt := InData(tmp, id, "input.txt"), InData(tmp, id, "output.txt"), InData(tmp, id, "error.txt");
    ProgramStaged(fs, tmp, id, exe);
    DataNamesApart(tmp, id, "input.txt", "output.txt");
    DataNamesApart(tmp, id, "input.txt", "error.txt");
    DataNamesApart(tmp, id, "output.txt", "error.txt");
    assert outTxt !in Under(wp, d) && errTxt !in Under(wp, d);
    assert Parent(outTxt) == d && Parent(errTxt) == d;
  }

  /** Setting two distinct keys twice leaves only the second values. */
  lemma Reassigned(m: FileSystem, a: Path, b: Path, x: Entry, y: Entry, x': Entry, y': Entry)
    requires a != b
    ensures m[a := x][b := y][a := x'][b := y'] == m[a := x'][b := y']
  {
  }

  /** The two writeFileSync(p, '') calls: two new empty files with mode 0o644. */
  method CreateEmpty(host: Host, outTxt: Path, errTxt: Path)
    requires host.Valid() && outTxt != errTxt
    requires Placeable(host.files, outTxt) && outTxt !in host.files
    requires Placeable(host.files, errTxt) && errTxt !in host.files
    requires Parent(errTxt) != outTxt
    modifies host
    ensures host.Valid()
    ensures host.files == old(host.files)[outTxt := File([], NewFileMode)][errTxt := File([], NewFileMode)]
  {
    var o := host.WriteEmpty(outTxt);
    assert o.Pass?;
    o := host.WriteEmpty(errTxt);
    assert o.Pass?;
  }

  /** Everything runWithStdIO does before it starts the sandbox. */
  method StageStdIO(host: Host, sandboxTmp: Path, taskId: string, executableFile: Path, inputFile: Path)
    returns (o: Outcome<FsError>)
    requires host.Valid()
    modifies host
    ensures host.Valid()
    ensures o.Pass? <==> RunStageable(old(host.files), sandboxTmp, taskId, executableFile, inputFile)
    ensures o.Pass? ==> host.files == StdIOStaged(old(host.files), sandboxTmp, taskId, executableFile, inputFile)
  {
    ghost var fs := host.files;
    var inTxt := InData(sandboxTmp, taskId, "input.txt");
    o := CreateWorkspace(host, sandboxTmp, taskId);
    if o.Fail? {
      return;
    }
    o := StageProgram(host, fs, sandboxTmp, taskId, executableFile);
    if o.Fail? {
      return;
    }
    ProgramStaged(fs, sandboxTmp, taskId, executableFile);
    ProgramStagedFiles(fs, sandboxTmp, taskId, executableFile, inputFile);
    assert inTxt !in Under(host.files, DataDir(sandboxTmp, taskId));
    o := host.CopyFile(inputFile, inTxt);
    if o.Fail? {
      return;
    }
    StdIOStagedSteps(fs, sandboxTmp, taskId, executableFile, inputFile);
    StreamsPlaceable(fs, sandboxTmp, taskId, executableFile, inputFile);
    CreateStreams(host, InData(sandboxTmp, taskId, "output.txt"), InData(sandboxTmp, taskId, "error.txt"));
  }

  /**
   * runWithStdIO(executableFile, inputFile, timeLimit, memoryLimit). It
   * rejects with an fs error exactly when the workspace cannot be created or
   * the executable or the input is not a regular file. Otherwise the program
   * runs on the staged disk. When the engine throws, the phase rejects with
   * its error and the task directory stays. Otherwise the output and error
   * texts are what data/output.txt and data/error.txt hold afterwards (""
   * where reading throws), and the task directory is gone.
   */
  method RunWithStdIO(host: Host, sandboxTmp: Path, taskId: string, executableFile: Path, inputFile: Path,
                      timeLimit: Option<int>, memoryLimit: Option<int>, engine: Engine)
    returns (r: Result<RunResult, PhaseError>, ghost staged: FileSystem, ghost ran: FileSystem)
    requires host.Valid() && IsTaskId(taskId)
    modifies host
    ensures host.Valid()
    ensures !RunStageable(old(host.files), sandboxTmp, taskId, executableFile, inputFile) ==> r.Failure? && r.error.FsFailed?
    ensures RunStageable(old(host.files), sandboxTmp, taskId, executableFile, inputFile) ==>
      var run := engine(StdIORequest(sandboxTmp, taskId, timeLimit, memoryLimit), staged);
      && staged == StdIOStaged(old(host.files), sandboxTmp, taskId, executableFile, inputFile)
      && ran == Overlay(staged, TaskDir(sandboxTmp, taskId), run.writes)
      && (r.Success? <==> run.outcome.Success?)
      && (run.outcome.Failure? ==> r == Failure(EngineFailed(run.outcome.error)) && host.files == ran)
    ensures r.Success? ==>
      var out := engine(StdIORequest(sandboxTmp, taskId, timeLimit, memoryLimit), staged).outcome;
      && RunStageable(old(host.files), sandboxTmp, taskId, executableFile, inputFile) && out.Success?
      && r.value == RunResult(Normalize(out.value),
                              ReadText(ran, InData(sandboxTmp, taskId, "output.txt")).GetOr(""),
                              ReadText(ran, InData(sandboxTmp, taskId, "error.txt")).GetOr(""))
      && host.files == Pruned(ran, TaskDir(sandboxTmp, taskId))
  {
    staged, ran := map[], map[];
    var sandboxDir := TaskDir(sandboxTmp, taskId);
    var outputPath := InData(sandboxTmp, taskId, "output.txt");
    var errorPath := InData(sandboxTmp, taskId, "error.txt");

    var o := StageStdIO(host, sandboxTmp, taskId, executableFile, inputFile);
    if o.Fail? {
      return Failure(FsFailed(o.error)), staged, ran;
    }
    staged := host.files;

    var run := RunSandbox(host, sandboxDir, StdIORequest(sandboxTmp, taskId, timeLimit, memoryLimit), engine);
    ran := host.files;
    if run.outcome.Failure? {
      return Failure(EngineFailed(run.outcome.error)), staged, ran;
    }
    var output := ReadText(host.files, outputPath).GetOr("");
    var error := ReadText(host.files, errorPath).GetOr("");
    var result := Normalize(run.outcome.value);
    host.Remove(sandboxDir);
    PrunedWellFormed(ran, sandboxDir);
    r := Success(RunResult(result, output, error));
  }

  /** The stream file the program's writes land in, relative to the task directory. */
  function DataEntry(name: string): Path {
    ["data", name]
  }

  /** What the process wrote to data/<name>, or "" where it wrote nothing. */
  function WrittenOrEmpty(writes: map<Path, seq<char>>, name: string): seq<char> {
    if DataEntry(name) in writes then writes[DataEntry(name)] else []
  }

  /**
   * Under runWithStdIO the output and error texts are exactly what the
   * program wrote to its stdout and stderr ("" for a stream it never wrote):
   * the staged files are empty and the reads cannot fail.
   */
  lemma StdIOReadsBack(fs: FileSystem, tmp: Path, id: string, exe: Path, input: Path, writes: map<Path, seq<char>>)
    requires WellFormed(fs) && RunStageable(fs, tmp, id, exe, input)
    ensures var ran := Overlay(StdIOStaged(fs, tmp, id, exe, input), TaskDir(tmp, id), writes);
      && ReadText(ran, InData(tmp, id, "output.txt")) == Some(WrittenOrEmpty(writes, "output.txt"))
      && ReadText(ran, InData(tmp, id, "error.txt")) == Some(WrittenOrEmpty(writes, "error.txt"))
  {
    var s, t := StdIOStaged(fs, tmp, id, exe, input), TaskDir(tmp, id);
    StdIOStagingLayout(fs, tmp, id, exe, input);
    StdIOStagedContents(fs, tmp, id, exe, input);
    StreamReadBack(s, tmp, id, "output.txt", writes);
    StreamReadBack(s, tmp, id, "error.txt", writes);
  }

  /** A regular file in data/ reads back as what the process wrote to it, else as it was. */
  lemma StreamReadBack(s: FileSystem, tmp: Path, id: string, name: string, writes: map<Path, seq<char>>)
    requires WellFormed(s) && InData(tmp, id, name) in s && s[InData(tmp, id, name)] == File([], SharedMode)
    ensures ReadText(Overlay(s, TaskDir(tmp, id), writes), InData(tmp, id, name)) == Some(WrittenOrEmpty(writes, name))
  {
    var p := InData(tmp, id, name);
    assert TaskDir(tmp, id) + DataEntry(name) == p;
    OverlayAt(s, TaskDir(tmp, id), writes, DataEntry(name));
  }

  // ---------------------------------------------------------------------------
  // runWithFileIO

  function FileIORequest(tmp: Path, id: string, timeLimit: Option<int>, memoryLimit: Option<int>): Invocation {
    FileIOInvocation(id, WorkDir(tmp, id), DataDir(tmp, id), timeLimit, memoryLimit)
  }

  /**
   * The disk when the program starts under runWithFileIO: work/program, the
   * input copied to work/<inputFileName>, work/ opened to mode 0o777, and an
   * empty data/error.txt with mode 0o666.
   */
  function FileIOStaged(fs: FileSystem, tmp: Path, id: string, exe: Path, input: Path, inputName: string): FileSystem
    requires IsFileAt(fs, exe) && (IsFileAt(fs, input) || input == InWork(tmp, id, "program"))
  {
    var s := WithProgram(fs, tmp, id, exe);
    s[InWork(tmp, id, inputName) := s[input]]
     [WorkDir(tmp, id) := Dir(OpenDirMode)]
     [InData(tmp, id, "error.txt") := File([], SharedMode)]
  }

  lemma FileIOStagedSteps(fs: FileSystem, tmp: Path, id: string, exe: Path, input: Path, inputName: string)
    requires IsFileAt(fs, exe) && (IsFileAt(fs, input) || input == InWork(tmp, id, "program"))
    ensures var wp := WithProgram(fs, tmp, id, exe);
      FileIOStaged(fs, tmp, id, exe, input, inputName)
      == wp[InWork(tmp, id, inputName) := wp[input]][WorkDir(tmp, id) := Dir(OpenDirMode)][InData(tmp, id, "error.txt") := File([], SharedMode)]
  {
  }

  /** Before the program runs, work/ holds the program and the input file, data/ only error.txt. */
  lemma FileIOStagingLayout(fs: FileSystem, tmp: Path, id: string, exe: Path, input: Path, inputName: string)
    requires WellFormed(fs) && RunStageable(fs, tmp, id, exe, input) && IsSimpleName(inputName)
    ensures var s, w, d := FileIOStaged(fs, tmp, id, exe, input, inputName), WorkDir(tmp, id), DataDir(tmp, id);
            var prog, inFile, errTxt := InWork(tmp, id, "program"), InWork(tmp, id, inputName), InData(tmp, id, "error.txt");
      && CanCopy(WithProgram(fs, tmp, id, exe), input, inFile)
      && WellFormed(s)
      && Under(s, w) == {w, prog, inFile} && Under(s, d) == {d, errTxt}
      && SameOutside(s, WithAncestry(fs, tmp), TaskDir(tmp, id))
  {
    var wp := WithProgram(fs, tmp, id, exe);
    FileIOStagedSteps(fs, tmp, id, exe, input, inputName);
    ProgramStaged(fs, tmp, id, exe);
    ProgramStagedFiles(fs, tmp, id, exe, input);
    assert Staging(fs, tmp, id, wp);
    FileIOFilesStaged(fs, tmp, id, wp, inputName, wp[input]);
  }

  /** The three steps after the program is in place: copy the input, open work/, create error.txt. */
  lemma FileIOFilesStaged(fs: FileSystem, tmp: Path, id: string, s: FileSystem, inputName: string, e: Entry)
    requires Staging(fs, tmp, id, s) && IsDirAt(s, WorkDir(tmp, id)) && e.File? && IsSimpleName(inputName)
    requires Under(s, WorkDir(tmp, id)) == {WorkDir(tmp, id), InWork(tmp, id, "program")}
    requires Under(s, DataDir(tmp, id)) == {DataDir(tmp, id)}
    requires s[InWork(tmp, id, "program")].File?
    ensures var w, d, inFile, errTxt := WorkDir(tmp, id), DataDir(tmp, id), InWork(tmp, id, inputName), InData(tmp, id, "error.txt");
            var s' := s[inFile := e][w := Dir(OpenDirMode)][errTxt := File([], SharedMode)];
      && Staging(fs, tmp, id, s')
      && Under(s', w) == {w, InWork(tmp, id, "program"), inFile}
      && Under(s', d) == {d, errTxt}
  {
    var w, d, inFile := WorkDir(tmp, id), DataDir(tmp, id), InWork(tmp, id, inputName);
    assert inFile != w && inFile[..|w|] == w;
    assert inFile in s ==> inFile in Under(s, w);
    PutInWork(fs, tmp, id, s, inputName, e);
    OpenWorkDir(fs, tmp, id, s[inFile := e]);
    var s2 := s[inFile := e][w := Dir(OpenDirMode)];
    assert InData(tmp, id, "error.txt") !in Under(s2, d);
    PutInData(fs, tmp, id, s2, "error.txt", File([], SharedMode));
  }

  /**
   * What the program finds: the input's bytes under the name it expects
   * (its own bytes when the input is work/program), itself as an executable
   * copy unless the input took its name, and an empty error.txt.
   */
  lemma FileIOStagedContents(fs: FileSystem, tmp: Path, id: string, exe: Path, input: Path, inputName: string)
    requires RunStageable(fs, tmp, id, exe, input) && IsSimpleName(inputName)
    ensures var s, prog, inFile := FileIOStaged(fs, tmp, id, exe, input, inputName), InWork(tmp, id, "program"), InWork(tmp, id, inputName);
      && s[inFile].File? && s[inFile].data == (if input == prog then fs[exe].data else fs[input].data)
      && (inputName != "program" ==> s[prog] == File(fs[exe].data, ExecMode))
      && s[WorkDir(tmp, id)] == Dir(OpenDirMode)
      && s[InData(tmp, id, "error.txt")] == File([], SharedMode)
  {
    var prog, inFile, w := InWork(tmp, id, "program"), InWork(tmp, id, inputName), WorkDir(tmp, id);
    FileIOStagedSteps(fs, tmp, id, exe, input, inputName);
    WorkDataApart(tmp, id, inputName);
    WorkDataApart(tmp, id, "program");
    assert inFile[|w|] == inputName && prog[|w|] == "program";
    if input != prog {
      FreshWorkspaceFiles(fs, tmp, id, input);
    }
  }

  /** Putting a regular file into work/ changes the listing of work/ and nothing else that matters. */
  lemma PutInWork(fs: FileSystem, tmp: Path, id: string, s: FileSystem, name: string, e: Entry)
    requires Staging(fs, tmp, id, s) && IsDirAt(s, WorkDir(tmp, id)) && e.File?
    requires !(InWork(tmp, id, name) in s && s[InWork(tmp, id, name)].Dir?)
    ensures var s', p := s[InWork(tmp, id, name) := e], InWork(tmp, id, name);
      && Staging(fs, tmp, id, s') && IsDirAt(s', WorkDir(tmp, id))
      && Under(s', WorkDir(tmp, id)) == Under(s, WorkDir(tmp, id)) + {p}
      && Under(s', DataDir(tmp, id)) == Under(s, DataDir(tmp, id))
  {
    var p, w := InWork(tmp, id, name), WorkDir(tmp, id);
    WorkDataApart(tmp, id, name);
    assert p[..|p| - 1] == w && p[..|w|] == w;
    PutWellFormed(s, p, e);
    UnderPut(s, w, p, e);
    UnderPut(s, DataDir(tmp, id), p, e);
    SameOutsidePut(s, WithAncestry(fs, tmp), TaskDir(tmp, id), p, e);
  }

  /** chmodSync(workDir, 0o777): work/ stays a directory, so nothing else changes. */
  lemma OpenWorkDir(fs: FileSystem, tmp: Path, id: string, s: FileSystem)
    requires Staging(fs, tmp, id, s) && IsDirAt(s, WorkDir(tmp, id))
    ensures var s' := s[WorkDir(tmp, id) := Dir(OpenDirMode)];
      && Staging(fs, tmp, id, s')
      && Under(s', WorkDir(tmp, id)) == Under(s, WorkDir(tmp, id))
      && Under(s', DataDir(tmp, id)) == Under(s, DataDir(tmp, id))
  {
    var w := WorkDir(tmp, id);
    var s' := s[w := Dir(OpenDirMode)];
    WorkDataApart(tmp, id, "x");
    assert DataDir(tmp, id) != w && !AtOrUnder(w, DataDir(tmp, id)) by {
      assert w[|w| - 1] == "work";
    }
    UnderPut(s, w, w, Dir(OpenDirMode));
    UnderPut(s, DataDir(tmp, id), w, Dir(OpenDirMode));
    SameOutsidePut(s, WithAncestry(fs, tmp), TaskDir(tmp, id), w, Dir(OpenDirMode));
    assert AtOrUnder(w, TaskDir(tmp, id)) by {
      assert w[..|TaskDir(tmp, id)|] == TaskDir(tmp, id);
    }
  }

  /** After the input is copied into work/, work/ is still a directory and data/ is still empty. */
  lemma FileIOInputCopied(fs: FileSystem, tmp: Path, id: string, exe: Path, input: Path, inputName: string)
    requires WellFormed(fs) && RunStageable(fs, tmp, id, exe, input) && IsSimpleName(inputName)
    ensures var wp, w, errTxt := WithProgram(fs, tmp, id, exe), WorkDir(tmp, id), InData(tmp, id, "error.txt");
            var s := wp[InWork(tmp, id, inputName) := wp[input]];
      && w in s && s[w].Dir?
      && Placeable(s[w := Dir(OpenDirMode)], errTxt) && errTxt !in s
  {
    var wp, w, d, inFile := WithProgram(fs, tmp, id, exe), WorkDir(tmp, id), DataDir(tmp, id), InWork(tmp, id, inputName);
    var errTxt := InData(tmp, id, "error.txt");
    ProgramStaged(fs, tmp, id, exe);
    WorkDataApart(tmp, id, inputName);
    assert inFile != w && inFile != d;
    assert errTxt !in Under(wp, d) && Parent(errTxt) == d;
    assert w != d && errTxt != inFile && errTxt != w;
  }

  /** writeFileSync(p, '') then chmodSync(p, 0o666) on a file that did not exist. */
  method CreateShared(host: Host, p: Path)
    requires host.Valid() && Placeable(host.files, p) && p !in host.files
    modifies host
    ensures host.Valid()
    ensures host.files == old(host.files)[p := File([], SharedMode)]
  {
    var o := host.WriteEmpty(p);
    assert o.Pass?;
    o := host.Chmod(p, SharedMode);
    assert o.Pass?;
  }

  /** Everything runWithFileIO does before it starts the sandbox. */
  method StageFileIO(host: Host, sandboxTmp: Path, taskId: string, executableFile: Path, inputFile: Path, inputFileName: string)
    returns (o: Outcome<FsError>)
    requires host.Valid() && IsSimpleName(inputFileName)
    modifies host
    ensures host.Valid()
    ensures o.Pass? <==> RunStageable(old(host.files), sandboxTmp, taskId, executableFile, inputFile)
    ensures o.Pass? ==> host.files == FileIOStaged(old(host.files), sandboxTmp, taskId, executableFile, inputFile, inputFileName)
  {
    ghost var fs := host.files;
    var workDir := WorkDir(sandboxTmp, taskId);
    o := CreateWorkspace(host, sandboxTmp, taskId);
    if o.Fail? {
      return;
    }
    o := StageProgram(host, fs, sandboxTmp, taskId, executableFile);
    if o.Fail? {
      return;
    }
    ProgramStagedFiles(fs, sandboxTmp, taskId, executableFile, inputFile);
    if RunStageable(fs, sandboxTmp, taskId, executableFile, inputFile) {
      FileIOStagingLayout(fs, sandboxTmp, taskId, executableFile, inputFile, inputFileName);
    }
    o := host.CopyFile(inputFile, workDir + [inputFileName]);
    if o.Fail? {
      return;
    }
    FileIOInputCopied(fs, sandboxTmp, taskId, executableFile, inputFile, inputFileName);
    o := host.Chmod(workDir, OpenDirMode);
    assert o.Pass?;
    CreateShared(host, InData(sandboxTmp, taskId, "error.txt"));
    FileIOStagedSteps(fs, sandboxTmp, taskId, executableFile, inputFile, inputFileName);
  }

  /**
   * runWithFileIO(executableFile, inputFile, inputFileName, outputFileName,
   * timeLimit, memoryLimit). It rejects with an fs error exactly when the
   * workspace cannot be created or the executable or the input is not a
   * regular file. When the engine throws, the phase rejects with its error and
   * the task directory stays. Otherwise the output text is what
   * work/<outputFileName> holds after the run ("" when there is no such file),
   * the error text is what data/error.txt holds, and the task directory is
   * gone.
   */
  method RunWithFileIO(host: Host, sandboxTmp: Path, taskId: string, executableFile: Path, inputFile: Path,
                       inputFileName: string, outputFileName: string,
                       timeLimit: Option<int>, memoryLimit: Option<int>, engine: Engine)
    returns (r: Result<RunResult, PhaseError>, ghost staged: FileSystem, ghost ran: FileSystem)
    requires host.Valid() && IsTaskId(taskId) && IsSimpleName(inputFileName) && IsSimpleName(outputFileName)
    modifies host
    ensures host.Valid()
    ensures !RunStageable(old(host.files), sandboxTmp, taskId, executableFile, inputFile) ==> r.Failure? && r.error.FsFailed?
    ensures RunStageable(old(host.files), sandboxTmp, taskId, executableFile, inputFile) ==>
      var run := engine(FileIORequest(sandboxTmp, taskId, timeLimit, memoryLimit), staged);
      && staged == FileIOStaged(old(host.files), sandboxTmp, taskId, executableFile, inputFile, inputFileName)
      && ran == Overlay(staged, TaskDir(sandboxTmp, taskId), run.writes)
      && (r.Success? <==> run.outcome.Success?)
      && (run.outcome.Failure? ==> r == Failure(EngineFailed(run.outcome.error)) && host.files == ran)
    ensures r.Success? ==>
      var out := engine(FileIORequest(sandboxTmp, taskId, timeLimit, memoryLimit), staged).outcome;
      && RunStageable(old(host.files), sandboxTmp, taskId, executableFile, inputFile) && out.Success?
      && r.value == RunResult(Normalize(out.value),
                              ReadText(ran, InWork(sandboxTmp, taskId, outputFileName)).GetOr(""),
                              ReadText(ran, InData(sandboxTmp, taskId, "error.txt")).GetOr(""))
      && host.files == Pruned(ran, TaskDir(sandboxTmp, taskId))
  {
    staged, ran := map[], map[];
    var sandboxDir := TaskDir(sandboxTmp, taskId);
    var outputPath := InWork(sandboxTmp, taskId, outputFileName);
    var errorPath := InData(sandboxTmp, taskId, "error.txt");

    var o := StageFileIO(host, sandboxTmp, taskId, executableFile, inputFile, inputFileName);
    if o.Fail? {
      return Failure(FsFailed(o.error)), staged, ran;
    }
    staged := host.files;

    var run := RunSandbox(host, sandboxDir, FileIORequest(sandboxTmp, taskId, timeLimit, memoryLimit), engine);
    ran := host.files;
    if run.outcome.Failure? {
      return Failure(EngineFailed(run.outcome.error)), staged, ran;
    }
    var output := ReadText(host.files, outputPath).GetOr("");
    var error := ReadText(host.files, errorPath).GetOr("");
    var result := Normalize(run.outcome.value);
    host.Remove(sandboxDir);
    PrunedWellFormed(ran, sandboxDir);
    r := Success(RunResult(result, output, error));
  }

  /** A file the process may create in work/ reads back as what it wrote, else as what was staged, else as "". */
  lemma WorkFileReadBack(s: FileSystem, tmp: Path, id: string, name: string, writes: map<Path, seq<char>>)
    requires WellFormed(s) && IsDirAt(s, WorkDir(tmp, id))
    requires var p := InWork(tmp, id, name); p in s ==> s[p].File?
    ensures var p := InWork(tmp, id, name);
      ReadText(Overlay(s, TaskDir(tmp, id), writes), p).GetOr("")
        == (if WorkEntry(name) in writes then writes[WorkEntry(name)] else if p in s then s[p].data else "")
  {
    assert TaskDir(tmp, id) + WorkEntry(name) == InWork(tmp, id, name);
    OverlayAt(s, TaskDir(tmp, id), writes, WorkEntry(name));
  }

  /** The path of work/<name> relative to the task directory. */
  function WorkEntry(name: string): Path {
    ["work", name]
  }

  /** What the input file held, as the program finds it in its workspace. */
  function InputData(fs: FileSystem, tmp: Path, id: string, exe: Path, input: Path): seq<char>
    requires IsFileAt(fs, exe) && (IsFileAt(fs, input) || input == InWork(tmp, id, "program"))
  {
    if input == InWork(tmp, id, "program") then fs[exe].data else fs[input].data
  }

  /**
   * Under runWithFileIO the output text is what the program wrote to
   * work/<outputFileName>; where it wrote nothing, it is what was staged
   * under that name (the input when the two names agree, the program itself
   * for "program") and "" otherwise. The error text is what it wrote to
   * stderr.
   */
  lemma FileIOReadsBack(fs: FileSystem, tmp: Path, id: string, exe: Path, input: Path,
                        inputName: string, outputName: string, writes: map<Path, seq<char>>)
    requires WellFormed(fs) && RunStageable(fs, tmp, id, exe, input)
    requires IsSimpleName(inputName) && IsSimpleName(outputName)
    ensures var ran := Overlay(FileIOStaged(fs, tmp, id, exe, input, inputName), TaskDir(tmp, id), writes);
      && ReadText(ran, InWork(tmp, id, outputName)).GetOr("")
         == (if WorkEntry(outputName) in writes then writes[WorkEntry(outputName)]
             else if outputName == inputName then InputData(fs, tmp, id, exe, input)
             else if outputName == "program" then fs[exe].data
             else "")
      && ReadText(ran, InData(tmp, id, "error.txt")) == Some(WrittenOrEmpty(writes, "error.txt"))
  {
    var s := FileIOStaged(fs, tmp, id, exe, input, inputName);
    FileIOStagingLayout(fs, tmp, id, exe, input, inputName);
    FileIOStagedContents(fs, tmp, id, exe, input, inputName);
    FileIOStagedNames(fs, tmp, id, exe, input, inputName, outputName);
    StreamReadBack(s, tmp, id, "error.txt", writes);
    WorkFileReadBack(s, tmp, id, outputName, writes);
  }

  lemma FileIOWorkListing(fs: FileSystem, tmp: Path, id: string, exe: Path, input: Path, inputName: string)
    requires WellFormed(fs) && RunStageable(fs, tmp, id, exe, input) && IsSimpleName(inputName)
    ensures Under(FileIOStaged(fs, tmp, id, exe, input, inputName), WorkDir(tmp, id))
            == {WorkDir(tmp, id), InWork(tmp, id, "program"), InWork(tmp, id, inputName)}
  {
    FileIOStagingLayout(fs, tmp, id, exe, input, inputName);
  }

  /** The only regular files in work/ when the program starts are the program and the input. */
  lemma FileIOStagedNames(fs: FileSystem, tmp: Path, id: string, exe: Path, input: Path, inputName: string, name: string)
    requires WellFormed(fs) && RunStageable(fs, tmp, id, exe, input)
    requires IsSimpleName(inputName) && IsSimpleName(name)
    ensures var s, p := FileIOStaged(fs, tmp, id, exe, input, inputName), InWork(tmp, id, name);
      && (p in s <==> name == inputName || name == "program")
      && (p in s ==> s[p].File?)
  {
    var s, w, p := FileIOStaged(fs, tmp, id, exe, input, inputName), WorkDir(tmp, id), InWork(tmp, id, name);
    FileIOWorkListing(fs, tmp, id, exe, input, inputName);
    FileIOStagedContents(fs, tmp, id, exe, input, inputName);
    var prog, inFile := InWork(tmp, id, "program"), InWork(tmp, id, inputName);
    assert p[..|w|] == w && p != w;
    assert p in s <==> p in Under(s, w);
    assert p == prog <==> name == "program";
    assert p == inFile <==> name == inputName;
  }

  /**
   * A run of either kind on a task directory that did not exist leaves the
   * disk as `mkdir -p sandboxTmp` would have left it, whatever the program
   * wrote.
   */
  lemma RunsLeaveNoTrace(fs: FileSystem, tmp: Path, id: string, exe: Path, input: Path, inputName: string,
                         writes: map<Path, seq<char>>)
    requires WellFormed(fs) && RunStageable(fs, tmp, id, exe, input) && IsSimpleName(inputName)
    requires forall k :: k in fs ==> !AtOrUnder(k, TaskDir(tmp, id))
    ensures Pruned(Overlay(StdIOStaged(fs, tmp, id, exe, input), TaskDir(tmp, id), writes), TaskDir(tmp, id))
              == WithAncestry(fs, tmp)
    ensures Pruned(Overlay(FileIOStaged(fs, tmp, id, exe, input, inputName), TaskDir(tmp, id), writes), TaskDir(tmp, id))
              == WithAncestry(fs, tmp)
  {
    StdIOStagingLayout(fs, tmp, id, exe, input);
    CleanupAfterRun(fs, tmp, id, StdIOStaged(fs, tmp, id, exe, input), writes);
    FileIOStagingLayout(fs, tmp, id, exe, input, inputName);
    CleanupAfterRun(fs, tmp, id, FileIOStaged(fs, tmp, id, exe, input, inputName), writes);
  }
}

# Sandbox pipeline and checker support of the chiko judger, in Dafny

This project models two parts of the chiko online-judge back end.

**The sandbox tester** (`judger/test/sandbox_tester.js`). It has three phases: `compile`, `runWithStdIO` and `runWithFileIO`. Each phase follows the same steps:

1. Create a per-task workspace `<sandbox_tmp>/<taskId>/{work,data}`.
2. Stage the files into it with fixed permission modes.
3. Hand an invocation record to the sandbox engine. The record holds limits, the single `/work` mount, the redirects, the user, the hostname and the cgroup.
4. Normalise the engine's raw outcome: nanoseconds become milliseconds, and the compiler's error text is capped at 1 MiB.
5. For `compile`, copy the binary out when compilation succeeded.
6. Remove the task directory.

The host filesystem is a `HostFs.Host` object whose `files` map the Node `fs` calls update in place. The engine is a function parameter. It maps the invocation and the staged disk to a raw outcome, or to the error it threw, and to a set of regular-file writes under the task directory. Those writes are the only effect a run can have: the engine can create or overwrite regular files, but it cannot delete, rename, make directories or change modes (see "## Left out").

**The checker support header** (`judger/checkers/testlib.h`). It provides:

- the exit-code protocol of `quitf`: a verdict word, the message as a 1024-byte buffer keeps it, then exit with the given code;
- the argument and file checks of `registerTestlibCmd`;
- the `InStream` reader, whose reads bump `readCount` and turn every failure into a presentation-error exit.

A `std::ifstream` is modelled as the `StreamScan.IfStream` class: the file's text, a cursor, `eofbit`, `failbit` and whether it is open. Each extraction is specified by a pure scanner (`ScanInt`, `ScanWord`, `ScanLine`) plus the stream-state rules of `Extract`. Ending the process is the value `Halt(Exit(code, stdout, stderr))`.

Modules:

- `Wrappers`: Option, Result and Outcome.
- `HostFs`: paths, the filesystem map and the `Host` class with `mkdirSync`, `copyFileSync`, `chmodSync`, `writeFileSync` and `rmSync`.
- `Workspace`: task-directory layout and frame predicates.
- `InvocationBuilder`: the invocation records and limit resolution.
- `ResultNormalizer`: the outcome normaliser.
- `SandboxTester`: the three phases and their staging, read-back and cleanup properties.
- `StreamScan`: C++ stream extraction.
- `Testlib`: the checker header.

## Model

| member | source | states |
|---|---|---|
| HostFs.Host.MakeDirs | judger/test/sandbox_tester.js:40 | `mkdir -p`: succeeds exactly when no component of the path is a regular file; the new disk is the old one plus every missing ancestor as a directory |
| HostFs.Host.MakeDir | judger/test/sandbox_tester.js:41-42 | succeeds exactly when the path is absent and its parent is a directory; adds only that directory |
| HostFs.Host.CopyFile | judger/test/sandbox_tester.js:46 | succeeds exactly when the source is a regular file and the target can hold a file; the target gets the source's contents and mode, nothing else changes |
| HostFs.Host.Chmod | judger/test/sandbox_tester.js:138 | succeeds exactly when the path exists; only that entry's mode changes |
| HostFs.Host.WriteEmpty | judger/test/sandbox_tester.js:146-147 | truncates an existing file (keeping its mode) or creates one with the default mode, exactly when the parent is a directory and the path is not a directory |
| HostFs.ReadText | judger/test/sandbox_tester.js:192-202 | `readFileSync` yields a text exactly when the path is a regular file, and that text is the file's contents; a missing path or a directory is a failure |
| HostFs.Host.Remove | judger/test/sandbox_tester.js:107 | never fails; the path and everything below it disappear, the rest of the disk is kept, well-formedness is preserved |
| InvocationBuilder.EffectiveTime | judger/test/sandbox_tester.js:154 | the caller's time limit when truthy (present and non-zero), else 1000 ms |
| InvocationBuilder.EffectiveMemory | judger/test/sandbox_tester.js:155 | a whole number of MiB: the caller's limit when truthy, else 256 |
| InvocationBuilder.ResolvedLimitsPositive | judger/test/sandbox_tester.js:262-263 | an absent or non-negative limit resolves to a positive one, and 0 resolves exactly like null |
| InvocationBuilder.CompileInvocation | judger/test/sandbox_tester.js:51-73 | g++ with the fixed argument list, as root, 64 processes, 10 s and 512 MiB, hostname `chiko-compiler-<id>` and cgroup `compiler-<id>`, the one quota-limited `/work` mount, only stderr redirected to data/error.txt |
| InvocationBuilder.RunInvocation | judger/test/sandbox_tester.js:158-182 | /work/program as its only argument, as `sandbox`, one process, the resolved limits, hostname `chiko-runner-<id>` and cgroup `runner-<id>`, the same confinement as compile |
| InvocationBuilder.StdIOInvocation | judger/test/sandbox_tester.js:171-173 | stdin, stdout and stderr bound to data/input.txt, data/output.txt and data/error.txt |
| InvocationBuilder.FileIOInvocation | judger/test/sandbox_tester.js:279-281 | stdin and stdout bound to /dev/null, stderr to data/error.txt |
| InvocationBuilder.NoRedirectIntoWork | judger/test/sandbox_tester.js:64 | in all three phases no redirect target lies at or under the work directory |
| InvocationBuilder.NamesSeparateTasks | judger/test/sandbox_tester.js:266-290 | different task ids never share a hostname or a cgroup, and a compiler never shares one with a runner |
| ResultNormalizer.Normalize | judger/test/sandbox_tester.js:103 | status, code and memory unchanged; time times 10^6 gives back the raw nanoseconds |
| ResultNormalizer.WholeMilliseconds | judger/test/sandbox_tester.js:205 | a whole number of milliseconds comes out exactly |
| ResultNormalizer.CapErrorText | judger/test/sandbox_tester.js:81-91 | a prefix of the text read, at most 1,048,576 long, the whole text when it is that short, "" when the read fails |
| SandboxTester.CreateWorkspace | judger/test/sandbox_tester.js:39-42 | succeeds exactly when the task path has no file on it and work/ and data/ are absent; the result is the fresh workspace |
| SandboxTester.FreshWorkspaceShape | judger/test/sandbox_tester.js:34-42 | work/ and data/ are empty directories, every old entry is kept, outside the task directory only the ancestors of sandbox_tmp are added |
| SandboxTester.RunSandbox | judger/test/sandbox_tester.js:76 | the engine sees the staged disk and its writes are laid over the task directory |
| SandboxTester.ReadErrorText | judger/test/sandbox_tester.js:81-91 | the compiler's diagnostics are the capped contents of data/error.txt, "" when that read fails |
| SandboxTester.CompileStagingLayout | judger/test/sandbox_tester.js:44-46 | before g++ starts, work/ holds exactly the source under its basename with its contents and mode, data/ is empty, nothing outside the task directory changed |
| SandboxTester.CopyExecutable | judger/test/sandbox_tester.js:95-96 | the output file gets work/program's contents with mode 0o755, exactly when the copy can be made |
| SandboxTester.Compile | judger/test/sandbox_tester.js:32-114 | on a normal return: the result is the normalised outcome with the capped error text; the output file holds the binary with mode 0o755 exactly when status is 1 and code is 0; the task directory is gone. It rejects with an fs error exactly when staging fails or a successful build cannot be copied out; when the engine throws it rejects with the engine's error; after staging, a rejection leaves the task directory on disk |
| SandboxTester.CompileLeavesOnlyTheBinary | judger/test/sandbox_tester.js:93-107 | with a fresh task id, compile leaves the disk as it was plus the ancestors of sandbox_tmp plus, on success, the binary at the output file, whatever the compiler wrote |
| SandboxTester.ProgramStaged | judger/test/sandbox_tester.js:136-138 | work/program is a copy of the executable with mode 0o755 and the only entry in work/; data/ is empty; old entries are kept |
| SandboxTester.StageProgram | judger/test/sandbox_tester.js:136-138 | staging the program succeeds exactly when the executable is a regular file |
| SandboxTester.StdIOStagingLayout | judger/test/sandbox_tester.js:136-149 | before the run, work/ holds only the program, data/ exactly input.txt, output.txt and error.txt, nothing outside the task directory changed |
| SandboxTester.StdIOStagedContents | judger/test/sandbox_tester.js:140-149 | data/input.txt holds the input's contents, output.txt and error.txt are empty with mode 0o666, the program is executable |
| SandboxTester.CreateEmpty | judger/test/sandbox_tester.js:146-147 | creates output.txt and error.txt empty with the default file mode and changes nothing else |
| SandboxTester.CreateStreams | judger/test/sandbox_tester.js:143-149 | creates empty output.txt and error.txt with mode 0o666 and changes nothing else |
| SandboxTester.StageStdIO | judger/test/sandbox_tester.js:131-149 | staging succeeds exactly when the workspace is creatable and the executable and the input are regular files; the disk is then the staged layout |
| SandboxTester.RunWithStdIO | judger/test/sandbox_tester.js:124-219 | rejects with an fs error exactly when staging fails, and with the engine's error, leaving the task directory, when the engine throws; otherwise the result is the normalised outcome with what data/output.txt and data/error.txt hold after the run ("" where a read fails), and the task directory is gone |
| SandboxTester.StdIOReadsBack | judger/test/sandbox_tester.js:188-202 | under stdio the output and error texts are exactly what the program wrote to stdout and stderr, "" for a stream it never wrote |
| SandboxTester.FileIOStagingLayout | judger/test/sandbox_tester.js:243-256 | before the run, work/ holds exactly the program and the input under its given name, data/ only error.txt, nothing outside the task directory changed |
| SandboxTester.FileIOStagedContents | judger/test/sandbox_tester.js:243-256 | the input copy holds the input's contents, work/ has mode 0o777, data/error.txt is empty with mode 0o666 |
| SandboxTester.CreateShared | judger/test/sandbox_tester.js:254-256 | creates data/error.txt empty with mode 0o666 and changes nothing else |
| SandboxTester.StageFileIO | judger/test/sandbox_tester.js:238-256 | staging succeeds exactly when the workspace is creatable and the executable and the input are regular files; the disk is then the staged layout |
| SandboxTester.RunWithFileIO | judger/test/sandbox_tester.js:231-328 | rejects with an fs error exactly when staging fails, and with the engine's error, leaving the task directory, when the engine throws; otherwise the result is the normalised outcome with what work/<outputFileName> and data/error.txt hold after the run ("" where a read fails), and the task directory is gone |
| SandboxTester.FileIOReadsBack | judger/test/sandbox_tester.js:296-311 | the output is what the program wrote to work/<outputFileName>; otherwise what was staged under that name (the input, or the program), else ""; the error text is what it wrote to stderr |
| SandboxTester.FileIOStagedNames | judger/test/sandbox_tester.js:244-248 | the only names present in work/ at the start are "program" and the input name |
| SandboxTester.RunsLeaveNoTrace | judger/test/sandbox_tester.js:317 | with a fresh task id, a run of either kind leaves the disk as it was plus the ancestors of sandbox_tmp, whatever the program wrote |
| StreamScan.ScanInt | judger/checkers/testlib.h:57 | `>> int` stops inside the text, reports reaching the end, only yields values in int range, and fails at the end on all-blank input |
| StreamScan.ScanIntFormatted | judger/checkers/testlib.h:54-66 | an int in range written at the cursor, after blanks and before a non-digit, reads back as itself whatever precedes the cursor, and the cursor stops right after it |
| StreamScan.ScanWord | judger/checkers/testlib.h:71 | `>> string` fails exactly when only blanks remain; a word is non-empty and blank-free |
| StreamScan.ScanWordFormatted | judger/checkers/testlib.h:68-80 | a blank-free word written at the cursor after blanks reads back as itself whatever precedes the cursor, and the cursor stops right after it |
| StreamScan.ScanLine | judger/checkers/testlib.h:99 | getline fails exactly at the end of the text, reports the end exactly when no newline remains, never keeps a newline |
| StreamScan.ScanLineFormatted | judger/checkers/testlib.h:96-108 | a line at the cursor followed by a newline reads back as itself whatever precedes the cursor, and the newline is consumed without reaching the end |
| StreamScan.ScanIntFromWord | judger/checkers/testlib.h:57 | wherever the skipped whitespace ends in the spelling of an in-range int followed by a non-digit, `>> int` reads exactly that int and stops after it |
| StreamScan.ScanLastLine | judger/checkers/testlib.h:99 | a final line without a newline reads back whole and getline reports the end |
| StreamScan.SkipSpaceReachesEnd | judger/checkers/testlib.h:111 | skipping blanks reaches the end exactly when only blanks remain |
| StreamScan.Opened | judger/checkers/testlib.h:127-129 | open succeeds on a closed stream and an existing file, starting at the beginning with the flags clear; otherwise only failbit is set |
| StreamScan.IfStream.constructor | judger/checkers/testlib.h:30-32 | a default-constructed stream: not open, good, nothing to read |
| StreamScan.IfStream.Apply | judger/checkers/testlib.h:57 | one extraction through the sentry: the new state and value are `Extract` of the old state with the given scan |
| StreamScan.Extract | judger/checkers/testlib.h:57 | a stream that is not good only gets failbit and yields nothing; otherwise the scan decides cursor and eofbit and a rejection sets failbit |
| StreamScan.SkippedSpace | judger/checkers/testlib.h:111 | `>> std::ws` on a good stream skips blanks and sets eofbit at the end, never failbit; otherwise it only sets failbit |
| StreamScan.IfStream.Open | judger/checkers/testlib.h:44 | the stream's new state is `Opened` of the old one |
| StreamScan.IfStream.ExtractInt | judger/checkers/testlib.h:57 | the new state and value are `Extract` of the old state with `ScanInt` |
| StreamScan.IfStream.ExtractWord | judger/checkers/testlib.h:71 | the new state and value are `Extract` of the old state with `ScanWord` |
| StreamScan.IfStream.GetLine | judger/checkers/testlib.h:99 | the new state and value are `Extract` of the old state with `ScanLine` |
| StreamScan.IfStream.SkipWs | judger/checkers/testlib.h:111 | the new state is `SkippedSpace` of the old one |
| Testlib.VerdictPrefix | judger/checkers/testlib.h:156-168 | a non-empty word ending in a blank exactly for codes 0, 1, 2, 3, 4 and 7 |
| Testlib.BufferText | judger/checkers/testlib.h:170-174 | the printed message is a NUL-free prefix of the formatted one of at most 1023 characters, cut only at 1023 characters or at a NUL |
| Testlib.Quitf | judger/checkers/testlib.h:152-176 | exits with exactly the given code, prints the verdict word first and ends with a newline, prints nothing to stderr, writes at most the word plus 1024 characters |
| Testlib.QuitfShortMessage | judger/checkers/testlib.h:170-174 | a message under 1024 characters without a NUL is printed whole |
| Testlib.VerdictRoundTrip | judger/checkers/testlib.h:156-168 | for each of the six verdict codes, the code is recovered from the printed line whatever the message |
| Testlib.SameLineSameVerdict | judger/checkers/testlib.h:22-27 | two verdict codes that print the same line are the same code |
| Testlib.OpenCheck | judger/checkers/testlib.h:131-144 | goes on exactly when all three streams are open; otherwise `_fail` with nothing on stdout |
| Testlib.CmdOutcome | judger/checkers/testlib.h:120-145 | a wrong argument count ends with the usage text; every end is `_fail` with nothing on stdout; going on needs four arguments and three openable (or already open) streams |
| Testlib.RegisterVerdict | judger/checkers/testlib.h:120-145 | on fresh streams, the checker goes on exactly when there are four arguments and all three files exist; otherwise `_fail`, naming the input file first, then the output file |
| Testlib.RegisterTestlibCmd | judger/checkers/testlib.h:120-145 | a wrong argument count ends with the usage text and touches no stream; otherwise all three streams are opened before any is checked |
| Testlib.ReadOutcome | judger/checkers/testlib.h:57-64 | a read goes on exactly when it yielded a value; a failure is `_pe` with the end-of-file or the failed-read message according to eofbit |
| Testlib.InStream.constructor | judger/checkers/testlib.h:52 | binds the stream and name, with readCount 0 |
| Testlib.InStream.InitFile | judger/checkers/testlib.h:43-49 | opens the stream; goes on exactly when it is open afterwards, otherwise `_fail` with the file's name |
| Testlib.InStream.ReadInt | judger/checkers/testlib.h:54-66 | readCount grows by one whatever happens; the stream and the outcome follow `stream >> int` |
| Testlib.InStream.ReadString | judger/checkers/testlib.h:68-80 | readCount grows by one whatever happens; the stream and the outcome follow `stream >> string` |
| Testlib.InStream.ReadDouble | judger/checkers/testlib.h:82-94 | readCount grows by one whatever happens; the stream and the outcome follow the given extraction |
| Testlib.InStream.ReadLine | judger/checkers/testlib.h:96-108 | readCount grows by one whatever happens; the stream and the outcome follow getline |
| Testlib.InStream.SeekEof | judger/checkers/testlib.h:110-113 | skips only blanks, answers eofbit, leaves readCount alone |
| Testlib.SeekEofOnlySpace | judger/checkers/testlib.h:110-113 | on a good stream seekEof is true exactly when nothing but blanks remains |
| Testlib.ReadIntFormatted | judger/checkers/testlib.h:54-66 | readInt on a good stream returns the int written at the cursor, at any point of the file; the cursor moves just past it and the stream stays good unless the text ends there |
| Testlib.ReadStringFormatted | judger/checkers/testlib.h:68-80 | readString on a good stream returns the word written at the cursor, at any point of the file, and stays good unless the text ends there |
| Testlib.ReadLineFormatted | judger/checkers/testlib.h:96-108 | readLine on a good stream returns the line at the cursor without its newline, moves past the newline and stays good |
| Testlib.WordAndLineFailOnlyAtEnd | judger/checkers/testlib.h:68-108 | on a good stream a failed readString or readLine always reports unexpected EOF |
| Testlib.ReadFailureIsPresentationError | judger/checkers/testlib.h:57-64 | every failed read ends with `_pe`, never `_wa` or `_fail` |

## Left out

- Logging (`console.log`/`warn`/`error`) and the `async`/`await` suspension. They have no effect on results.
- SandboxTester.RunSandbox, SandboxTester.FileIOReadsBack: the confined process can only create or overwrite regular files under the task directory. Deleting, renaming, making directories and changing modes are not modelled, though work/ is 0o777 in file-I/O mode and g++ runs as root. FileIOReadsBack's fallback to the staged file under the output name depends on this: a program that removes that file or replaces it with a directory makes the source read "".
- The sandbox engine (`startSandbox`, `waitForStop`, `getUidAndGidInSandbox`) is foreign code. It is the `engine` parameter, which may answer with an error instead of an outcome (a rejected limit, say). Its writes are assumed to land only in the task directory: the work mount and the data redirects.
- `crypto.randomBytes` task ids are a parameter, required to be 32 lower-case hex digits. Their uniqueness is probabilistic.
- Real file I/O and UTF-8 decoding. Contents are `seq<char>`, and the 1 MiB cap counts elements of that sequence as JavaScript counts UTF-16 units.
- Modes assume a umask of 022. Directories made by `mkdirSync` get 0o755. Files made by `writeFileSync`, and files the confined process creates, get 0o644.
- `result.time /= 1000000` is exact `real` division, with no IEEE-754 rounding.
- Failures of `rmSync`, which `force: true` makes rare, are not modelled.
- SandboxTester.RunWithFileIO, SandboxTester.StageFileIO: require the file names to be single path components. `path.resolve` would also accept names with `/` or `..`, which could reach outside work/.
- SandboxTester.Compile, SandboxTester.RunWithStdIO, SandboxTester.RunWithFileIO: when staging throws, the disk is left as the failing call left it, and the contracts say only that the phase rejects with an fs error. The code's catch blocks rethrow without removing anything.
- Negative limits pass through unchanged (`EffectiveTime`, `EffectiveMemory`), as the code does; whether the engine accepts them is up to the engine, and a rejection is an engine error.
- InvocationBuilder.EffectiveTime, InvocationBuilder.EffectiveMemory: limits are taken as integers. A JavaScript limit may be fractional or `NaN` (which is falsy and would fall back to the default); neither is modelled.
- Only the compiler's error text is capped. The run phases return output and error texts whole, as the code does.
- There is no checker run phase, because the sandbox tester has none.
- Testlib.InStream.ReadDouble: floating-point parsing is not modelled. The extraction's result is a parameter.
- `readCount` is an unbounded integer. The C++ `int` could overflow after 2^31 reads.
- setName does nothing, so it is not modelled.
- The global instances `inf_`, `ouf_` and `ans_` are not modelled. They pass a string literal where the constructor expects a stream, so they do not compile.
- Testlib.Quitf: the printf-style format expansion is not modelled. The message is passed already formatted.
- Testlib.BufferText, Testlib.Quitf: the texts of the checker are byte sequences, one `char` per byte, so the 1023-character cut of `vsnprintf` is a 1023-byte cut.
- StreamScan.SkippedSpace: `>> std::ws` on a stream that is not good only sets failbit, as C++11 specifies after LWG issue 415. Older libraries, which extract without a sentry, are not modelled.
- The exit status is the code as given. The host would keep only its low 8 bits, which changes nothing for the six verdict codes.
- `initFile` is private and never called in the header. It is modelled as written anyway.

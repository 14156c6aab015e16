/**
 * The checker support layer of testlib.h: the exit-code protocol of quitf,
 * the argument and file checks of registerTestlibCmd, and the InStream
 * reader over a std::ifstream. Ending the process is a value,
 * `Halt(Exit(code, stdout, stderr))`, which the caller must stop on.
 */
module Testlib {
  import opened Wrappers
  import opened StreamScan

  const ExitOk: int := 0
  const ExitWrongAnswer: int := 1
  const ExitPresentationError: int := 2
  const ExitFail: int := 3
  const ExitDirt: int := 4
  const ExitPoints: int := 7

  /** What a terminated checker leaves: its exit status and what it wrote to its two output streams. */
  datatype Exit = Exit(code: int, stdout: string, stderr: string)

  /** Either the call returns normally with a value, or the process ends. */
  datatype Flow<T> = Continue(value: T) | Halt(exit: Exit)

  predicate IsVerdictCode(code: int) {
    code == ExitOk || code == ExitWrongAnswer || code == ExitPresentationError
    || code == ExitFail || code == ExitDirt || code == ExitPoints
  }

  /** The word quitf prints before the message; nothing for a code outside the six. */
  function VerdictPrefix(code: int): (prefix: string)
    ensures prefix != [] <==> IsVerdictCode(code)
    ensures prefix != [] ==> prefix[|prefix| - 1] == ' '
  {
    if code == ExitOk then "OK "
    else if code == ExitWrongAnswer then "Wrong Answer "
    else if code == ExitPresentationError then "Presentation Error "
    else if code == ExitFail then "FAIL "
    else if code == ExitDirt then "DIRT "
    else if code == ExitPoints then "points "
    else ""
  }

  /** How a reader of the checker's stdout recovers the verdict from the leading word. */
  function VerdictOf(stdout: string): (code: Option<int>)
    ensures code.Some? ==> IsVerdictCode(code.value) && VerdictPrefix(code.value) <= stdout
  {
    if "OK " <= stdout then Some(ExitOk)
    else if "Wrong Answer " <= stdout then Some(ExitWrongAnswer)
    else if "Presentation Error " <= stdout then Some(ExitPresentationError)
    else if "FAIL " <= stdout then Some(ExitFail)
    else if "DIRT " <= stdout then Some(ExitDirt)
    else if "points " <= stdout then Some(ExitPoints)
    else None
  }

  /** The size of quitf's message buffer, terminating NUL included. */
  const BufferSize: int := 1024

  /** The longest prefix of s without a NUL: what `std::cout << buffer` prints of a C string. */
  function UpToNul(s: string): (r: string)
    ensures r <= s && '\0' !in r
    ensures |r| == |s| || s[|r|] == '\0'
  {
    if s == [] || s[0] == '\0' then [] else [s[0]] + UpToNul(s[1..])
  }

  /**
   * What of the formatted message reaches stdout: vsnprintf keeps at most
   * BufferSize - 1 characters and a NUL, and printing stops at the first NUL.
   */
  function BufferText(formatted: string): (printed: string)
    ensures printed <= formatted && |printed| < BufferSize && '\0' !in printed
    ensures |printed| == BufferSize - 1 || |printed| == |formatted| || formatted[|printed|] == '\0'
  {
    UpToNul(if |formatted| < BufferSize then formatted else formatted[..BufferSize - 1])
  }

  /**
   * quitf(exitCode, format, ...), with the format already expanded into
   * `formatted`: the verdict word, the message as the buffer keeps it and a
   * newline on stdout, then exit with exactly exitCode.
   */
  function Quitf(exitCode: int, formatted: string): (e: Exit)
    ensures e.code == exitCode && e.stderr == []
    ensures VerdictPrefix(exitCode) <= e.stdout && |e.stdout| > 0 && e.stdout[|e.stdout| - 1] == '\n'
    ensures |e.stdout| <= |VerdictPrefix(exitCode)| + BufferSize
  {
    Exit(exitCode, VerdictPrefix(exitCode) + BufferText(formatted) + "\n", [])
  }

  /** A short message without NULs is printed whole. */
  lemma QuitfShortMessage(exitCode: int, formatted: string)
    requires |formatted| < BufferSize && '\0' !in formatted
    ensures Quitf(exitCode, formatted).stdout == VerdictPrefix(exitCode) + formatted + "\n"
  {
  }

  /** For the six verdict codes, the code can be read back from what quitf prints, whatever the message. */
  lemma VerdictRoundTrip(exitCode: int, formatted: string)
    requires IsVerdictCode(exitCode)
    ensures VerdictOf(Quitf(exitCode, formatted).stdout) == Some(exitCode)
  {
  }

  /** So two checker runs with verdict codes that print the same line exited with the same code. */
  lemma SameLineSameVerdict(a: int, ma: string, b: int, mb: string)
    requires IsVerdictCode(a) && IsVerdictCode(b)
    requires Quitf(a, ma).stdout == Quitf(b, mb).stdout
    ensures a == b
  {
    VerdictRoundTrip(a, ma);
    VerdictRoundTrip(b, mb);
  }

  /** The two lines registerTestlibCmd prints to stderr on a wrong argument count. */
  const UsageText: string :=
    "Invalid number of arguments for checker\nUsage: checker <input-file> <output-file> <answer-file>\n"

  /** The file's text when it can be opened for reading, None otherwise. */
  function Lookup(disk: map<string, string>, fileName: string): Option<string> {
    if fileName in disk then Some(disk[fileName]) else None
  }

  /**
   * The checks after the three opens, in order: input, output, answer; the
   * first stream that is not open ends the process with _fail.
   */
  function OpenCheck(argv: seq<string>, inputOpen: bool, outputOpen: bool, answerOpen: bool): (f: Flow<()>)
    requires |argv| == 4
    ensures f.Continue? <==> inputOpen && outputOpen && answerOpen
    ensures f.Halt? ==> f.exit.code == ExitFail && f.exit.stdout == []
  {
    if !inputOpen then Halt(Exit(ExitFail, [], "Failed to open input file: " + argv[1] + "\n"))
    else if !outputOpen then Halt(Exit(ExitFail, [], "Failed to open output file: " + argv[2] + "\n"))
    else if !answerOpen then Halt(Exit(ExitFail, [], "Failed to open answer file: " + argv[3] + "\n"))
    else Continue(())
  }

  /** The whole of registerTestlibCmd as a function of the arguments, the disk and the three streams. */
  function CmdOutcome(argv: seq<string>, disk: map<string, string>,
                      inf: StreamState, ouf: StreamState, ans: StreamState): (f: Flow<()>)
    ensures |argv| != 4 ==> f == Halt(Exit(ExitFail, [], UsageText))
    ensures f.Halt? ==> f.exit.code == ExitFail && f.exit.stdout == []
    ensures f.Continue? ==> |argv| == 4 && (inf.isOpen || argv[1] in disk)
                            && (ouf.isOpen || argv[2] in disk) && (ans.isOpen || argv[3] in disk)
  {
    if |argv| != 4 then Halt(Exit(ExitFail, [], UsageText))
    else OpenCheck(argv, Opened(inf, Lookup(disk, argv[1])).isOpen,
                         Opened(ouf, Lookup(disk, argv[2])).isOpen,
                         Opened(ans, Lookup(disk, argv[3])).isOpen)
  }

  /**
   * With the three streams not yet open, the checker goes on exactly when it
   * has four arguments and all three files can be opened; otherwise it ends
   * with _fail, naming the first file that could not be opened.
   */
  lemma RegisterVerdict(argv: seq<string>, disk: map<string, string>,
                        inf: StreamState, ouf: StreamState, ans: StreamState)
    requires !inf.isOpen && !ouf.isOpen && !ans.isOpen
    ensures var f := CmdOutcome(argv, disk, inf, ouf, ans);
      && (f.Continue? <==> |argv| == 4 && argv[1] in disk && argv[2] in disk && argv[3] in disk)
      && (f.Halt? ==> f.exit.code == ExitFail && f.exit.stdout == [])
      && (|argv| == 4 && argv[1] !in disk ==> f.exit.stderr == "Failed to open input file: " + argv[1] + "\n")
      && (|argv| == 4 && argv[1] in disk && argv[2] !in disk ==>
            f.exit.stderr == "Failed to open output file: " + argv[2] + "\n")
  {
  }

  /**
   * registerTestlibCmd(argc, argv), with argc the length of argv: all three
   * files are opened before any of them is checked.
   */
  method RegisterTestlibCmd(argv: seq<string>, disk: map<string, string>, inf: IfStream, ouf: IfStream, ans: IfStream)
    returns (f: Flow<()>)
    requires inf.Valid() && ouf.Valid() && ans.Valid()
    requires inf != ouf && inf != ans && ouf != ans
    modifies inf, ouf, ans
    ensures inf.Valid() && ouf.Valid() && ans.Valid()
    ensures f == CmdOutcome(argv, disk, old(inf.State()), old(ouf.State()), old(ans.State()))
    ensures |argv| != 4 ==> inf.State() == old(inf.State()) && ouf.State() == old(ouf.State()) && ans.State() == old(ans.State())
    ensures |argv| == 4 ==>
      && inf.State() == Opened(old(inf.State()), Lookup(disk, argv[1]))
      && ouf.State() == Opened(old(ouf.State()), Lookup(disk, argv[2]))
      && ans.State() == Opened(old(ans.State()), Lookup(disk, argv[3]))
  {
    if |argv| != 4 {
      return Halt(Exit(ExitFail, [], UsageText));
    }
    inf.Open(Lookup(disk, argv[1]));
    ouf.Open(Lookup(disk, argv[2]));
    ans.Open(Lookup(disk, argv[3]));
    if !inf.isOpen {
      return Halt(Exit(ExitFail, [], "Failed to open input file: " + argv[1] + "\n"));
    }
    if !ouf.isOpen {
      return Halt(Exit(ExitFail, [], "Failed to open output file: " + argv[2] + "\n"));
    }
    if !ans.isOpen {
      return Halt(Exit(ExitFail, [], "Failed to open answer file: " + argv[3] + "\n"));
    }
    f := Continue(());
  }

  /**
   * How a read method ends: the value when the extraction succeeded, else a
   * presentation error whose message says whether the stream hit its end.
   */
  function ReadOutcome<T>(value: Option<T>, after: StreamState, what: string, name: string): (f: Flow<T>)
    ensures f.Continue? <==> value.Some?
    ensures f.Continue? ==> f.value == value.value
    ensures f.Halt? ==> f.exit.code == ExitPresentationError && f.exit.stdout == []
    ensures f.Halt? && after.eof ==> f.exit.stderr == "Unexpected EOF when reading " + what + " from " + name + "\n"
    ensures f.Halt? && !after.eof ==> f.exit.stderr == "Failed to read " + what + " from " + name + "\n"
  {
    match value
    case Some(v) => Continue(v)
    case None =>
      var message := if after.eof then "Unexpected EOF when reading " + what + " from " + name + "\n"
                     else "Failed to read " + what + " from " + name + "\n";
      Halt(Exit(ExitPresentationError, [], message))
  }

  /** A named reader over one of the checker's streams, counting its reads. */
  class InStream {
    const stream: IfStream
    const name: string
    var readCount: int

    ghost predicate Valid()
      reads this, stream
    {
      stream.Valid()
    }

    constructor (s: IfStream, name: string)
      requires s.Valid()
      ensures Valid() && stream == s && this.name == name && readCount == 0
    {
      stream := s;
      this.name := name;
      readCount := 0;
    }

    /** initFile(fileName): open the stream, ending with _fail when it is not open afterwards. */
    method InitFile(fileName: string, disk: map<string, string>) returns (f: Flow<()>)
      requires Valid()
      modifies stream
      ensures Valid()
      ensures stream.State() == Opened(old(stream.State()), Lookup(disk, fileName))
      ensures f.Continue? <==> stream.isOpen
      ensures f.Halt? ==> f.exit == Exit(ExitFail, [], "Failed to open " + name + " file: " + fileName + "\n")
    {
      stream.Open(Lookup(disk, fileName));
      if !stream.isOpen {
        return Halt(Exit(ExitFail, [], "Failed to open " + name + " file: " + fileName + "\n"));
      }
      f := Continue(());
    }

    method ReadInt() returns (f: Flow<int>)
      requires Valid()
      modifies this, stream
      ensures Valid() && readCount == old(readCount) + 1
      ensures var (after, value) := Extract(old(stream.State()), ScanInt(old(stream.text), old(stream.pos)));
        stream.State() == after && f == ReadOutcome(value, after, "integer", name)
    {
      readCount := readCount + 1;
      var value := stream.ExtractInt();
      f := ReadOutcome(value, stream.State(), "integer", name);
    }

    method ReadString() returns (f: Flow<string>)
      requires Valid()
      modifies this, stream
      ensures Valid() && readCount == old(readCount) + 1
      ensures var (after, value) := Extract(old(stream.State()), ScanWord(old(stream.text), old(stream.pos)));
        stream.State() == after && f == ReadOutcome(value, after, "string", name)
    {
      readCount := readCount + 1;
      var value := stream.ExtractWord();
      f := ReadOutcome(value, stream.State(), "string", name);
    }

    /**
     * readDouble(). The floating-point extraction itself is not modelled:
     * `scan` is what it finds from the current position.
     */
    method ReadDouble(scan: Scan<real>) returns (f: Flow<real>)
      requires Valid() && stream.pos <= scan.next <= |stream.text|
      modifies this, stream
      ensures Valid() && readCount == old(readCount) + 1
      ensures var (after, value) := Extract(old(stream.State()), scan);
        stream.State() == after && f == ReadOutcome(value, after, "double", name)
    {
      readCount := readCount + 1;
      var value := stream.Apply(scan);
      f := ReadOutcome(value, stream.State(), "double", name);
    }

    method ReadLine() returns (f: Flow<string>)
      requires Valid()
      modifies this, stream
      ensures Valid() && readCount == old(readCount) + 1
      ensures var (after, value) := Extract(old(stream.State()), ScanLine(old(stream.text), old(stream.pos)));
        stream.State() == after && f == ReadOutcome(value, after, "line", name)
    {
      readCount := readCount + 1;
      var value := stream.GetLine();
      f := ReadOutcome(value, stream.State(), "line", name);
    }

    /** seekEof(): skip whitespace and report eofbit; not a read, so readCount stays. */
    method SeekEof() returns (atEnd: bool)
      requires Valid()
      modifies stream
      ensures Valid()
      ensures stream.State() == SkippedSpace(old(stream.State()))
      ensures atEnd == stream.eof
    {
      stream.SkipWs();
      atEnd := stream.eof;
    }
  }

  /** On a good stream, seekEof answers true exactly when only whitespace is left. */
  lemma SeekEofOnlySpace(s: StreamState)
    requires Good(s) && s.pos <= |s.text|
    ensures SkippedSpace(s).eof <==> AllSpace(s.text[s.pos..])
  {
    SkipSpaceReachesEnd(s.text, s.pos);
  }

  /**
   * On a good stream, readInt returns the int written at the cursor (after
   * whitespace, before a non-digit), whichever read of the file it is. The
   * stream moves just past it and stays good unless the text ends there, so
   * the next read starts from that point.
   */
  lemma ReadIntFormatted(s: StreamState, pre: string, lead: string, v: int, rest: string, name: string)
    requires Good(s) && s.text == pre + lead + IntText(v) + rest && s.pos == |pre|
    requires AllSpace(lead) && MinInt <= v <= MaxInt && (rest == [] || !IsDigit(rest[0]))
    ensures var (after, value) := Extract(s, ScanInt(s.text, s.pos));
      && ReadOutcome(value, after, "integer", name) == Continue(v)
      && after == s.(pos := |pre| + |lead| + |IntText(v)|, eof := rest == [])
  {
    ScanIntFormatted(pre, lead, v, rest);
  }

  /** On a good stream, readString returns the word written at the cursor, at any point of the file. */
  lemma ReadStringFormatted(s: StreamState, pre: string, lead: string, word: string, rest: string, name: string)
    requires Good(s) && s.text == pre + lead + word + rest && s.pos == |pre|
    requires AllSpace(lead) && word != [] && forall i | 0 <= i < |word| :: !IsSpace(word[i])
    requires rest == [] || IsSpace(rest[0])
    ensures var (after, value) := Extract(s, ScanWord(s.text, s.pos));
      && ReadOutcome(value, after, "string", name) == Continue(word)
      && after == s.(pos := |pre| + |lead| + |word|, eof := rest == [])
  {
    ScanWordFormatted(pre, lead, word, rest);
  }

  /** On a good stream, readLine returns the line at the cursor without its '\n' and stays good. */
  lemma ReadLineFormatted(s: StreamState, pre: string, line: string, rest: string, name: string)
    requires Good(s) && s.text == pre + line + "\n" + rest && s.pos == |pre|
    requires '\n' !in line
    ensures var (after, value) := Extract(s, ScanLine(s.text, s.pos));
      && ReadOutcome(value, after, "line", name) == Continue(line)
      && after == s.(pos := |pre| + |line| + 1)
  {
    ScanLineFormatted(pre, line, rest);
  }

  /**
   * On a good stream, readString and readLine can only fail at the end of
   * the text, so their "Failed to read" branch is never taken there.
   */
  lemma WordAndLineFailOnlyAtEnd(s: StreamState, name: string)
    requires Good(s) && s.pos <= |s.text|
    ensures var (after, value) := Extract(s, ScanWord(s.text, s.pos));
      value.None? ==> ReadOutcome(value, after, "string", name).exit.stderr
                      == "Unexpected EOF when reading string from " + name + "\n"
    ensures var (after, value) := Extract(s, ScanLine(s.text, s.pos));
      value.None? ==> ReadOutcome(value, after, "line", name).exit.stderr
                      == "Unexpected EOF when reading line from " + name + "\n"
  {
  }

  /**
   * Any failed read, on any stream, ends the checker with a presentation
   * error and never with _wa or _fail: a corollary of ReadOutcome's ensures,
   * stated over Extract so that it covers every scanner.
   */
  lemma ReadFailureIsPresentationError<T>(s: StreamState, scan: Scan<T>, what: string, name: string)
    requires s.pos <= |s.text|
    ensures var (after, value) := Extract(s, scan);
      var f := ReadOutcome(value, after, what, name);
      f.Halt? ==> f.exit.code == ExitPresentationError && f.exit.code != ExitWrongAnswer && f.exit.code != ExitFail
  {
  }
}

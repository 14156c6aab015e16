/**
 * The part of std::ifstream that the checker's InStream relies on: a cursor
 * over the file's text with the eof and fail flags, and the three formatted
 * extractions it uses (`>> int`, `>> std::string`, std::getline) plus
 * `>> std::ws`. Whitespace is the C locale's: space, \t, \n, \v, \f, \r.
 */
module StreamScan {
  import opened Wrappers

  const MinInt: int := -0x8000_0000
  const MaxInt: int := 0x7fff_ffff

  predicate IsSpace(c: char) {
    c == ' ' || c == '\t' || c == '\n' || c == '\U{0B}' || c == '\U{0C}' || c == '\r'
  }

  predicate IsDigit(c: char) {
    '0' <= c <= '9'
  }

  predicate AllSpace(s: string) {
    forall i | 0 <= i < |s| :: IsSpace(s[i])
  }

  predicate AllDigits(s: string) {
    forall i | 0 <= i < |s| :: IsDigit(s[i])
  }

  /** The first position at or after pos that is not whitespace. */
  function SkipSpace(text: string, pos: nat): (r: nat)
    requires pos <= |text|
    ensures pos <= r <= |text|
    ensures AllSpace(text[pos..r])
    ensures r == |text| || !IsSpace(text[r])
    decreases |text| - pos
  {
    if pos == |text| || !IsSpace(text[pos]) then pos
    else
      var r := SkipSpace(text, pos + 1);
      assert text[pos..r] == [text[pos]] + text[pos + 1..r];
      r
  }

  /** The end of the run of decimal digits starting at pos. */
  function DigitsEnd(text: string, pos: nat): (r: nat)
    requires pos <= |text|
    ensures pos <= r <= |text|
    ensures AllDigits(text[pos..r])
    ensures r == |text| || !IsDigit(text[r])
    decreases |text| - pos
  {
    if pos == |text| || !IsDigit(text[pos]) then pos
    else
      var r := DigitsEnd(text, pos + 1);
      assert text[pos..r] == [text[pos]] + text[pos + 1..r];
      r
  }

  /** The end of the run of non-whitespace characters starting at pos. */
  function WordEnd(text: string, pos: nat): (r: nat)
    requires pos <= |text|
    ensures pos <= r <= |text|
    ensures forall i | pos <= i < r :: !IsSpace(text[i])
    ensures r == |text| || IsSpace(text[r])
    decreases |text| - pos
  {
    if pos == |text| || IsSpace(text[pos]) then pos else WordEnd(text, pos + 1)
  }

  /** The position of the first '\n' at or after pos, or the end of the text. */
  function LineEnd(text: string, pos: nat): (r: nat)
    requires pos <= |text|
    ensures pos <= r <= |text|
    ensures '\n' !in text[pos..r]
    ensures r == |text| || text[r] == '\n'
    decreases |text| - pos
  {
    if pos == |text| || text[pos] == '\n' then pos
    else
      var r := LineEnd(text, pos + 1);
      assert text[pos..r] == [text[pos]] + text[pos + 1..r];
      r
  }

  function DigitValue(c: char): nat
    requires IsDigit(c)
  {
    (c as int - '0' as int) as nat
  }

  /** The number a run of decimal digits denotes (leading zeros allowed). */
  function DecimalValue(s: string): nat
    requires AllDigits(s)
  {
    if s == [] then 0 else DecimalValue(s[..|s| - 1]) * 10 + DigitValue(s[|s| - 1])
  }

  /** The shortest decimal spelling of n, as `operator<<` writes it. */
  function NatText(n: nat): (s: string)
    ensures s != [] && AllDigits(s)
  {
    if n < 10 then [('0' as int + n) as char] else NatText(n / 10) + [('0' as int + n % 10) as char]
  }

  function IntText(v: int): (s: string)
    ensures s != [] && (IsDigit(s[0]) || s[0] == '-')
  {
    if v < 0 then "-" + NatText(-v) else NatText(v)
  }

  /** Reading back a spelling gives the number. */
  lemma {:induction false} NatTextValue(n: nat)
    ensures DecimalValue(NatText(n)) == n
  {
    if n >= 10 {
      var s := NatText(n);
      assert s[..|s| - 1] == NatText(n / 10);
      NatTextValue(n / 10);
    }
  }

  /**
   * What a formatted extraction finds from `next` on: a value and the new
   * cursor, or nothing. `hitEnd` is whether it ran into the end of the text,
   * which is when the stream sets eofbit.
   */
  datatype Scan<T> = Scanned(value: T, next: nat, hitEnd: bool) | Rejected(next: nat, hitEnd: bool)

  /**
   * `stream >> int` on a good stream (num_get for a signed decimal int):
   * skip whitespace, take an optional sign and the digits that follow; no
   * digits, or a value outside int, is a failure.
   */
  function ScanInt(text: string, pos: nat): (r: Scan<int>)
    requires pos <= |text|
    ensures pos <= r.next <= |text| && (r.hitEnd <==> r.next == |text|)
    ensures r.Scanned? ==> MinInt <= r.value <= MaxInt
    ensures SkipSpace(text, pos) == |text| ==> r == Rejected(|text|, true)
  {
    var start := SkipSpace(text, pos);
    if start == |text| then Rejected(start, true)
    else
      var negative := text[start] == '-';
      var digits := if text[start] == '-' || text[start] == '+' then start + 1 else start;
      var end := DigitsEnd(text, digits);
      if end == digits then Rejected(end, end == |text|)
      else
        var magnitude: int := DecimalValue(text[digits..end]);
        var v := if negative then -magnitude else magnitude;
        if v < MinInt || v > MaxInt then Rejected(end, end == |text|)
        else Scanned(v, end, end == |text|)
  }

  /** `stream >> s` for a std::string on a good stream: skip whitespace, take the next word. */
  function ScanWord(text: string, pos: nat): (r: Scan<string>)
    requires pos <= |text|
    ensures pos <= r.next <= |text| && (r.hitEnd <==> r.next == |text|)
    ensures r.Rejected? <==> SkipSpace(text, pos) == |text|
    ensures r.Scanned? ==> r.value != [] && forall i | 0 <= i < |r.value| :: !IsSpace(r.value[i])
  {
    var start := SkipSpace(text, pos);
    if start == |text| then Rejected(start, true)
    else
      var end := WordEnd(text, start);
      Scanned(text[start..end], end, end == |text|)
  }

  /**
   * std::getline on a good stream: everything up to the next '\n', which is
   * consumed but not kept; at the very end of the text there is no line.
   */
  function ScanLine(text: string, pos: nat): (r: Scan<string>)
    requires pos <= |text|
    ensures pos <= r.next <= |text|
    ensures r.hitEnd <==> '\n' !in text[pos..]
    ensures r.Rejected? <==> pos == |text|
    ensures r.Scanned? ==> '\n' !in r.value
  {
    if pos == |text| then Rejected(pos, true)
    else
      var end := LineEnd(text, pos);
      if end < |text| then
        assert text[pos..][end - pos] == '\n';
        Scanned(text[pos..end], end + 1, false)
      else Scanned(text[pos..], end, true)
  }

  /**
   * An int written at the cursor, after optional whitespace and before a
   * non-digit (or the end), reads back as itself, whatever came before the
   * cursor; the cursor stops right after its last digit.
   */
  lemma ScanIntFormatted(pre: string, lead: string, v: int, rest: string)
    requires AllSpace(lead) && MinInt <= v <= MaxInt
    requires rest == [] || !IsDigit(rest[0])
    ensures ScanInt(pre + lead + IntText(v) + rest, |pre|)
            == Scanned(v, |pre| + |lead| + |IntText(v)|, rest == [])
  {
    var t := IntText(v);
    var text := pre + lead + t + rest;
    var start := |pre| + |lead|;
    var e := start + |t|;
    assert pre + lead + (t + rest) == text;
    SkipToWord(pre, lead, t + rest);
    assert text[start..e] == t;
    assert e == |text| || text[e] == rest[0];
    ScanIntFromWord(text, |pre|, start, v);
  }

  /** Where the skipped whitespace ends in the spelling of an int that a non-digit follows, ScanInt reads that int. */
  lemma ScanIntFromWord(text: string, pos: nat, start: nat, v: int)
    requires pos <= start && start + |IntText(v)| <= |text| && MinInt <= v <= MaxInt
    requires SkipSpace(text, pos) == start && text[start..start + |IntText(v)|] == IntText(v)
    requires start + |IntText(v)| == |text| || !IsDigit(text[start + |IntText(v)|])
    ensures ScanInt(text, pos) == Scanned(v, start + |IntText(v)|, start + |IntText(v)| == |text|)
  {
    var t := IntText(v);
    var n: nat := if v < 0 then -v else v;
    var d := if v < 0 then start + 1 else start;
    var e := start + |t|;
    assert text[start] == t[0];
    assert text[d..e] == NatText(n) by {
      assert t == if v < 0 then "-" + NatText(n) else NatText(n);
    }
    assert text[start] == '-' <==> v < 0 by {
      assert NatText(n)[0] != '-';
    }
    DigitsRun(text, d, e);
    NatTextValue(n);
  }

  /** Skipping whitespace from the cursor stops where the first non-space character is. */
  lemma SkipToWord(pre: string, lead: string, tail: string)
    requires AllSpace(lead) && tail != [] && !IsSpace(tail[0])
    ensures SkipSpace(pre + lead + tail, |pre|) == |pre| + |lead|
  {
    var text := pre + lead + tail;
    assert text[|pre| + |lead|] == tail[0];
    assert forall i | |pre| <= i < |pre| + |lead| :: text[i] == lead[i - |pre|];
    SkipSpaceStops(text, |pre|, |pre| + |lead|);
  }

  lemma SkipSpaceStops(text: string, start: nat, end: nat)
    requires start <= end < |text| && !IsSpace(text[end])
    requires forall i | start <= i < end :: IsSpace(text[i])
    ensures SkipSpace(text, start) == end
    decreases end - start
  {
    if start < end {
      SkipSpaceStops(text, start + 1, end);
    }
  }

  /** A run of digits from start to end, followed by a non-digit or the end, is exactly what DigitsEnd finds. */
  lemma DigitsRun(text: string, start: nat, end: nat)
    requires start <= end <= |text| && AllDigits(text[start..end])
    requires end == |text| || !IsDigit(text[end])
    ensures DigitsEnd(text, start) == end
    decreases end - start
  {
    if start < end {
      assert text[start..end][0] == text[start];
      assert text[start + 1..end] == text[start..end][1..];
      DigitsRun(text, start + 1, end);
    }
  }

  /** A word written at the cursor, after whitespace and before whitespace (or the end), reads back. */
  lemma ScanWordFormatted(pre: string, lead: string, word: string, rest: string)
    requires AllSpace(lead) && word != [] && forall i | 0 <= i < |word| :: !IsSpace(word[i])
    requires rest == [] || IsSpace(rest[0])
    ensures ScanWord(pre + lead + word + rest, |pre|) == Scanned(word, |pre| + |lead| + |word|, rest == [])
  {
    var text := pre + lead + word + rest;
    var start := |pre| + |lead|;
    assert pre + lead + (word + rest) == text;
    SkipToWord(pre, lead, word + rest);
    assert text[start..start + |word|] == word;
    WordRun(text, start, start + |word|);
  }

  lemma WordRun(text: string, start: nat, end: nat)
    requires start <= end <= |text| && forall i | start <= i < end :: !IsSpace(text[i])
    requires end == |text| || IsSpace(text[end])
    ensures WordEnd(text, start) == end
    decreases end - start
  {
    if start < end {
      WordRun(text, start + 1, end);
    }
  }

  /** A line written at the cursor and ended by '\n' reads back, and the cursor moves past the '\n'. */
  lemma ScanLineFormatted(pre: string, line: string, rest: string)
    requires '\n' !in line
    ensures ScanLine(pre + line + "\n" + rest, |pre|) == Scanned(line, |pre| + |line| + 1, false)
  {
    var text := pre + line + "\n" + rest;
    assert forall i | |pre| <= i < |pre| + |line| :: text[i] == line[i - |pre|];
    LineRun(text, |pre|, |pre| + |line|);
    assert text[|pre|..|pre| + |line|] == line;
  }

  /** A last line without '\n' reads back whole, and the stream reaches its end. */
  lemma ScanLastLine(pre: string, line: string)
    requires line != [] && '\n' !in line
    ensures ScanLine(pre + line, |pre|) == Scanned(line, |pre| + |line|, true)
  {
    var text := pre + line;
    assert text[|pre|..] == line;
  }

  lemma LineRun(text: string, start: nat, end: nat)
    requires start <= end < |text| && text[end] == '\n'
    requires forall i | start <= i < end :: text[i] != '\n'
    ensures LineEnd(text, start) == end
    decreases end - start
  {
    if start < end {
      LineRun(text, start + 1, end);
    }
  }

  /** `>> std::ws` reaches the end exactly when nothing but whitespace is left. */
  lemma SkipSpaceReachesEnd(text: string, pos: nat)
    requires pos <= |text|
    ensures SkipSpace(text, pos) == |text| <==> AllSpace(text[pos..])
  {
    var r := SkipSpace(text, pos);
    if r < |text| {
      assert text[pos..][r - pos] == text[r];
    }
  }

  /** The state of a std::ifstream as InStream sees it. */
  datatype StreamState = StreamState(isOpen: bool, text: string, pos: nat, eof: bool, fail: bool)

  predicate Good(s: StreamState) {
    !s.eof && !s.fail
  }

  /**
   * `open(name)`: an already open stream or a missing file sets failbit; a
   * successful open starts at the beginning with the flags cleared.
   */
  function Opened(s: StreamState, file: Option<string>): (r: StreamState)
    ensures r.isOpen <==> s.isOpen || file.Some?
    ensures !s.isOpen && file.Some? ==> r == StreamState(true, file.value, 0, false, false)
    ensures s.isOpen || file.None? ==> r.fail && r.text == s.text && r.pos == s.pos
  {
    if s.isOpen || file.None? then s.(fail := true)
    else StreamState(true, file.value, 0, false, false)
  }

  /**
   * One extraction on state s: a stream that is not good only gets failbit
   * (the sentry fails and nothing is read); otherwise the scan decides the
   * cursor and eofbit, and a rejection sets failbit.
   */
  function Extract<T>(s: StreamState, scan: Scan<T>): (r: (StreamState, Option<T>))
    ensures !Good(s) ==> r == (s.(fail := true), None)
    ensures Good(s) ==> r.0.pos == scan.next && r.0.eof == scan.hitEnd && (r.0.fail <==> scan.Rejected?)
    ensures r.0.isOpen == s.isOpen && r.0.text == s.text
    ensures r.1.Some? <==> Good(s) && scan.Scanned?
    ensures r.1.Some? ==> r.1.value == scan.value
  {
    if !Good(s) then (s.(fail := true), None)
    else match scan
      case Scanned(v, n, e) => (s.(pos := n, eof := e), Some(v))
      case Rejected(n, e) => (s.(pos := n, eof := e, fail := true), None)
  }

  /** `>> std::ws`: on a good stream skips whitespace and sets eofbit at the end; otherwise only sets failbit. */
  function SkippedSpace(s: StreamState): (r: StreamState)
    requires s.pos <= |s.text|
    ensures Good(s) ==> r == s.(pos := SkipSpace(s.text, s.pos), eof := SkipSpace(s.text, s.pos) == |s.text|)
    ensures !Good(s) ==> r == s.(fail := true)
  {
    if Good(s) then
      var p := SkipSpace(s.text, s.pos);
      s.(pos := p, eof := p == |s.text|)
    else s.(fail := true)
  }

  /** A std::ifstream: the file's text, the read position and the two state flags. */
  class IfStream {
    var isOpen: bool
    var text: string
    var pos: nat
    var eof: bool
    var fail: bool

    ghost predicate Valid()
      reads this
    {
      pos <= |text|
    }

    function State(): StreamState
      reads this
    {
      StreamState(isOpen, text, pos, eof, fail)
    }

    /** A default-constructed std::ifstream: not open, good, nothing to read. */
    constructor ()
      ensures Valid() && State() == StreamState(false, [], 0, false, false)
    {
      isOpen, text, pos, eof, fail := false, [], 0, false, false;
    }

    /** `open(fileName, std::ios::in)`, with the file's text (None when it cannot be opened). */
    method Open(file: Option<string>)
      requires Valid()
      modifies this
      ensures Valid() && State() == Opened(old(State()), file)
    {
      if isOpen || file.None? {
        fail := true;
      } else {
        isOpen, text, pos, eof, fail := true, file.value, 0, false, false;
      }
    }

    method Apply<T>(scan: Scan<T>) returns (value: Option<T>)
      requires Valid() && scan.next <= |text|
      modifies this
      ensures Valid()
      ensures (State(), value) == Extract(old(State()), scan)
    {
      if eof || fail {
        fail := true;
        return None;
      }
      match scan
      case Scanned(v, n, e) =>
        pos, eof := n, e;
        value := Some(v);
      case Rejected(n, e) =>
        pos, eof, fail := n, e, true;
        value := None;
    }

    /** `stream >> result` for an int. */
    method ExtractInt() returns (value: Option<int>)
      requires Valid()
      modifies this
      ensures Valid()
      ensures (State(), value) == Extract(old(State()), ScanInt(old(text), old(pos)))
    {
      value := Apply(ScanInt(text, pos));
    }

    /** `stream >> result` for a std::string. */
    method ExtractWord() returns (value: Option<string>)
      requires Valid()
      modifies this
      ensures Valid()
      ensures (State(), value) == Extract(old(State()), ScanWord(old(text), old(pos)))
    {
      value := Apply(ScanWord(text, pos));
    }

    /** `std::getline(stream, result)`. */
    method GetLine() returns (value: Option<string>)
      requires Valid()
      modifies this
      ensures Valid()
      ensures (State(), value) == Extract(old(State()), ScanLine(old(text), old(pos)))
    {
      value := Apply(ScanLine(text, pos));
    }

    /** `stream >> std::ws`. */
    method SkipWs()
      requires Valid()
      modifies this
      ensures Valid() && State() == SkippedSpace(old(State()))
    {
      if eof || fail {
        fail := true;
      } else {
        pos := SkipSpace(text, pos);
        eof := pos == |text|;
      }
    }
  }
}

/**
 * What the sandbox tester makes of the engine's raw outcome: the time
 * converted from nanoseconds to milliseconds, and the compiler's error text
 * capped at 1 MiB of JavaScript string length.
 */
module ResultNormalizer {
  import opened Wrappers

  /** What waitForStop resolves to: time in nanoseconds, memory in bytes. */
  datatype RawOutcome = RawOutcome(status: int, code: int, time: int, memory: int)

  /** The same record after `result.time /= 1000000`. */
  datatype Measured = Measured(status: int, code: int, time: real, memory: int)

  const NsPerMs: int := 1000000
  const ErrorTextCap: int := 1048576

  /** The success test of the compile phase (and of its callers): status 1 and exit code 0. */
  predicate Succeeded(raw: RawOutcome) {
    raw.status == 1 && raw.code == 0
  }

  /** Only the time changes, and multiplying back by 10^6 recovers the nanoseconds exactly. */
  function Normalize(raw: RawOutcome): (m: Measured)
    ensures m.status == raw.status && m.code == raw.code && m.memory == raw.memory
    ensures m.time * (NsPerMs as real) == raw.time as real
  {
    Measured(raw.status, raw.code, raw.time as real / NsPerMs as real, raw.memory)
  }

  /**
   * A whole number of milliseconds comes out as that number: 1,500,000,000 ns
   * is 1500 ms. A corollary of Normalize's second ensures, spelt out for the
   * common case.
   */
  lemma WholeMilliseconds(raw: RawOutcome)
    requires raw.time % NsPerMs == 0
    ensures Normalize(raw).time == (raw.time / NsPerMs) as real
  {
    var q := raw.time / NsPerMs;
    assert raw.time == q * NsPerMs;
    assert raw.time as real == (q as real) * (NsPerMs as real);
  }

  /**
   * The compile phase's error text: what was read, cut to its first
   * 1,048,576 characters; the empty string when the read threw.
   */
  function CapErrorText(read: Option<seq<char>>): (text: seq<char>)
    ensures |text| <= ErrorTextCap
    ensures read.None? ==> text == []
    ensures read.Some? ==> |text| == if |read.value| <= ErrorTextCap then |read.value| else ErrorTextCap
    ensures read.Some? ==> text == read.value[..|text|]
  {
    match read
    case None => []
    case Some(t) => if |t| > ErrorTextCap then t[..ErrorTextCap] else t
  }
}

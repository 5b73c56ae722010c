/**
 * forever_retry_uncaught_exceptions: the wrapper calls its target again and
 * again, absorbing every failure it raises and asking the rate limiter
 * whether to log it, until a call returns normally.  The target's behaviour
 * and the clock are given as a finite trace of calls.
 */
module Supervisor {
  import opened Wrappers
  import opened CauseChain
  import opened RetryWindow

  /** One call of the target: it raised `failure`, caught when the clock read
      `at`, or it returned. */
  datatype Call = Raises(failure: Failure, at: int) | Returns

  /** Index of the first call that returns, or |calls| when none does. */
  function ReturnIndex(calls: seq<Call>): (k: nat)
    ensures k <= |calls|
    ensures forall j :: 0 <= j < k ==> calls[j].Raises?
    ensures k < |calls| ==> calls[k].Returns?
  {
    if calls == [] || calls[0].Returns? then 0 else 1 + ReturnIndex(calls[1..])
  }

  /** The failures the wrapper catches: those raised before the first return. */
  function Attempts(calls: seq<Call>): (occ: seq<Occurrence>)
    ensures |occ| == ReturnIndex(calls)
    ensures forall j :: 0 <= j < |occ| ==> calls[j] == Raises(occ[j].failure, occ[j].at)
  {
    seq(ReturnIndex(calls), j requires 0 <= j < ReturnIndex(calls) =>
          Occurrence(calls[j].failure, calls[j].at))
  }

  /**
   * Runs the wrapper over the trace.  `invoked` is how many times the target
   * was called and `completed` says whether it returned; `log` holds the
   * lines written through logging.exception, exactly those the rate limiter
   * emits for the caught failures.  Each line is written with the text
   * LogMessage(line.count).
   */
  method Supervise(calls: seq<Call>, duration: nat)
    returns (log: seq<LogLine>, invoked: nat, completed: bool)
    ensures completed <==> exists j :: 0 <= j < |calls| && calls[j].Returns?
    ensures invoked == if completed then ReturnIndex(calls) + 1 else |calls|
    ensures log == Emitted(Idle, Attempts(calls), duration)
  {
    var tracker := new RetryWindowTracker(duration);
    ghost var caught := Attempts(calls);
    log := [];
    var i := 0;
    while i < |calls|
      invariant i <= ReturnIndex(calls)
      invariant tracker.Valid() && tracker.duration == duration
      invariant tracker.State() == After(Idle, caught[..i], duration)
      invariant log == Emitted(Idle, caught[..i], duration)
    {
      match calls[i]
      case Returns =>
        assert caught[..i] == caught;
        invoked, completed := i + 1, true;
        return;
      case Raises(f, at) =>
        var d := tracker.Decide(Signature(f), at);
        if d.Emit? {
          log := log + [LogLine(d.count, f, at)];
        }
        assert caught[..i + 1][..i] == caught[..i];
        i := i + 1;
    }
    assert caught[..i] == caught;
    invoked, completed := |calls|, false;
  }

  /** The decimal digits of n, most significant first. */
  function Decimal(n: nat): (s: string)
    ensures |s| >= 1
    ensures forall i :: 0 <= i < |s| ==> '0' <= s[i] <= '9'
  {
    if n < 10 then [Digit(n)] else Decimal(n / 10) + [Digit(n % 10)]
  }

  function Digit(d: nat): char
    requires d < 10
  {
    "0123456789"[d]
  }

  /** The number a string of decimal digits denotes. */
  function DecimalValue(s: string): nat
    requires forall i :: 0 <= i < |s| ==> '0' <= s[i] <= '9'
  {
    if s == [] then 0
    else DecimalValue(s[..|s| - 1]) * 10 + (s[|s| - 1] as int - '0' as int)
  }

  /** The count written in a log line reads back as the count. */
  lemma {:induction false} DecimalRoundTrip(n: nat)
    ensures DecimalValue(Decimal(n)) == n
  {
    if n >= 10 {
      DecimalRoundTrip(n / 10);
      assert Decimal(n)[..|Decimal(n)| - 1] == Decimal(n / 10);
    }
  }

  /** The text logged for a line reporting `count` occurrences. */
  function LogMessage(count: nat): (m: string)
    ensures IsInfix("Unexpected exception occurred " + Decimal(count) + " time(s)", m)
  {
    var m := "Unexpected exception occurred " + Decimal(count) + " time(s)";
    InfixOfPrefix(m, []);
    assert m + [] == m;
    m
  }

  /** The counts of a list of log lines. */
  function Counts(lines: seq<LogLine>): (r: seq<nat>)
    ensures |r| == |lines|
    ensures forall i :: 0 <= i < |lines| ==> r[i] == lines[i].count
  {
    seq(|lines|, i requires 0 <= i < |lines| => lines[i].count)
  }

  /** The target raising the given failures in order and then returning. */
  function Trace(occ: seq<Occurrence>): (calls: seq<Call>)
    ensures |calls| == |occ| + 1 && calls[|occ|] == Returns
    ensures forall j :: 0 <= j < |occ| ==> calls[j] == Raises(occ[j].failure, occ[j].at)
  {
    seq(|occ|, j requires 0 <= j < |occ| => Raises(occ[j].failure, occ[j].at)) + [Returns]
  }

  /** The wrapper catches exactly the failures of such a trace. */
  lemma {:induction false} TraceCaughtInFull(occ: seq<Occurrence>)
    ensures ReturnIndex(Trace(occ)) == |occ|
    ensures Attempts(Trace(occ)) == occ
  {
  }
}

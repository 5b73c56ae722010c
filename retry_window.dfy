/**
 * The rate limiter behind forever_retry_uncaught_exceptions: for every caught
 * failure it decides whether to log now and with what count.  It tracks the
 * signature of the last logged failure, how many repeats of it were
 * suppressed since, and when the current window (a stopwatch) started.
 */
module RetryWindow {
  import opened Wrappers
  import opened CauseChain

  /** The stopwatch duration used by the supervisor, in seconds. */
  const WindowSeconds: nat := 60

  datatype Decision = Emit(count: nat) | Suppress

  /** The tracker's abstract state: not tracking yet, or tracking a signature
      whose window began at windowStart, with `suppressed` silent repeats. */
  datatype WindowState = Idle | Tracking(signature: string, windowStart: int, suppressed: nat)

  /** The window that began at `start` has run out at time `now`.  A reading
      exactly `duration` after the start counts as expired. */
  predicate Expired(start: int, now: int, duration: nat)
  {
    now - start >= duration
  }

  /** Expiry is decided by elapsed time alone: the window is open strictly
      before `start + duration` and expired from that reading on, so a later
      reading never reopens it. */
  lemma ExpiryBoundary(start: int, now: int, later: int, duration: nat)
    ensures !Expired(start, start + duration - 1, duration)
    ensures Expired(start, start + duration, duration)
    ensures Expired(start, now, duration) && now <= later ==> Expired(start, later, duration)
  {
  }

  /** One decision: the state after a failure with signature `sig` caught at
      time `now`, and whether (and with what count) it is logged. */
  function Next(s: WindowState, sig: string, now: int, duration: nat): (r: (WindowState, Decision))
    ensures r.0.Tracking? && r.0.signature == sig
    ensures r.1.Emit? ==> r.1.count >= 1 && r.0.windowStart == now && r.0.suppressed == 0
    ensures r.1.Suppress? ==> s.Tracking? && r.0 == s.(suppressed := s.suppressed + 1)
    // a repeat is suppressed exactly while its window is open
    ensures r.1.Suppress? <==> s.Tracking? && s.signature == sig && !Expired(s.windowStart, now, duration)
    // a first or changed signature is reported once; an expired repeat reports suppressed + 1
    ensures s.Idle? || s.signature != sig ==> r.1 == Emit(1)
    ensures s.Tracking? && s.signature == sig && r.1.Emit? ==> r.1.count == s.suppressed + 1
  {
    match s
    case Idle => (Tracking(sig, now, 0), Emit(1))
    case Tracking(current, start, k) =>
      if sig != current then (Tracking(sig, now, 0), Emit(1))
      else if Expired(start, now, duration) then (Tracking(sig, now, 0), Emit(k + 1))
      else (Tracking(sig, start, k + 1), Suppress)
  }

  /** A caught failure and the clock reading taken for it. */
  datatype Occurrence = Occurrence(failure: Failure, at: int)

  /** An emitted "Unexpected exception occurred <count> time(s)" record. */
  datatype LogLine = LogLine(count: nat, failure: Failure, at: int)

  /** The state after feeding the occurrences in order, starting from s. */
  function After(s: WindowState, occ: seq<Occurrence>, duration: nat): (r: WindowState)
    ensures occ != [] ==> r.Tracking? && r.signature == Signature(occ[|occ| - 1].failure)
  {
    if occ == [] then s
    else
      var last := occ[|occ| - 1];
      Next(After(s, occ[..|occ| - 1], duration), Signature(last.failure), last.at, duration).0
  }

  /** The log lines emitted while feeding the occurrences in order: the
      calls to logging.exception.  At most one line per occurrence, and a
      fresh tracker always logs something once a failure was caught. */
  function Emitted(s: WindowState, occ: seq<Occurrence>, duration: nat): (r: seq<LogLine>)
    ensures |r| <= |occ|
    ensures s.Idle? && occ != [] ==> |r| >= 1
  {
    if occ == [] then []
    else
      var last := occ[|occ| - 1];
      var prev := Emitted(s, occ[..|occ| - 1], duration);
      match Next(After(s, occ[..|occ| - 1], duration), Signature(last.failure), last.at, duration).1
      case Emit(n) => prev + [LogLine(n, last.failure, last.at)]
      case Suppress => prev
  }

  /** The sum of the counts reported by a list of log lines. */
  function Reported(lines: seq<LogLine>): nat
  {
    if lines == [] then 0 else Reported(lines[..|lines| - 1]) + lines[|lines| - 1].count
  }

  /** Number of silent repeats a state still holds. */
  function Pending(s: WindowState): nat
  {
    if s.Idle? then 0 else s.suppressed
  }

  /** Feeding a trace in two pieces is feeding it at once. */
  lemma {:induction false} FeedSplits(s: WindowState, a: seq<Occurrence>, b: seq<Occurrence>,
                                      duration: nat)
    ensures After(s, a + b, duration) == After(After(s, a, duration), b, duration)
    ensures Emitted(s, a + b, duration) ==
              Emitted(s, a, duration) + Emitted(After(s, a, duration), b, duration)
    decreases |b|
  {
    if b == [] {
      assert a + b == a;
    } else {
      var b' := b[..|b| - 1];
      assert (a + b)[..|a + b| - 1] == a + b';
      assert (a + b)[|a + b| - 1] == b[|b| - 1];
      FeedSplits(s, a, b', duration);
    }
  }

  /** Feeding one more occurrence takes one decision on the state reached so
      far and adds its line, if any, to the lines logged so far. */
  lemma FeedOne(s: WindowState, occ: seq<Occurrence>, o: Occurrence, duration: nat)
    ensures var (next, d) := Next(After(s, occ, duration), Signature(o.failure), o.at, duration);
            After(s, occ + [o], duration) == next
            && Emitted(s, occ + [o], duration) ==
                 Emitted(s, occ, duration) + (if d.Emit? then [LogLine(d.count, o.failure, o.at)] else [])
  {
    assert (occ + [o])[..|occ + [o]| - 1] == occ;
  }

  /** Every reported count is at least 1: a log line always stands for the
      failure that triggered it. */
  lemma {:induction false} CountsArePositive(s: WindowState, occ: seq<Occurrence>, duration: nat)
    ensures forall i :: 0 <= i < |Emitted(s, occ, duration)| ==> Emitted(s, occ, duration)[i].count >= 1
  {
    if occ != [] {
      CountsArePositive(s, occ[..|occ| - 1], duration);
    }
  }

  /**
   * From a fresh tracker, once anything was caught: at least one line was
   * logged, the window began at the time of the last log line, and the
   * signature tracked is that line's failure's signature.
   */
  lemma {:induction false} WindowStartsAtLastLog(occ: seq<Occurrence>, duration: nat)
    requires occ != []
    ensures var lines := Emitted(Idle, occ, duration);
            var s := After(Idle, occ, duration);
            |lines| > 0 && s.Tracking?
            && s.windowStart == lines[|lines| - 1].at
            && s.signature == Signature(lines[|lines| - 1].failure)
  {
    var prefix := occ[..|occ| - 1];
    if prefix != [] {
      WindowStartsAtLastLog(prefix, duration);
    }
  }

  /**
   * The first failure ever caught, and any failure whose signature differs
   * from the previous one, is logged at once with count 1, whether or not the
   * window has run out; repeats suppressed under the old signature are not
   * reported.
   */
  lemma SignatureChangeLoggedAtOnce(occ: seq<Occurrence>, o: Occurrence, duration: nat)
    requires occ == [] || Signature(occ[|occ| - 1].failure) != Signature(o.failure)
    ensures Emitted(Idle, occ + [o], duration) ==
              Emitted(Idle, occ, duration) + [LogLine(1, o.failure, o.at)]
    ensures After(Idle, occ + [o], duration) == Tracking(Signature(o.failure), o.at, 0)
  {
    assert (occ + [o])[..|occ + [o]| - 1] == occ;
  }

  /**
   * Repeats of one signature are rate-limited: of two consecutive log lines
   * for the same signature, the later comes at least one window after the
   * earlier.
   */
  lemma {:induction false} RepeatsLoggedAtMostOncePerWindow(occ: seq<Occurrence>, duration: nat)
    ensures var lines := Emitted(Idle, occ, duration);
            forall i :: 0 <= i < |lines| - 1 && Signature(lines[i].failure) == Signature(lines[i + 1].failure)
              ==> lines[i + 1].at - lines[i].at >= duration
  {
    if occ != [] {
      var prefix := occ[..|occ| - 1];
      var last := occ[|occ| - 1];
      RepeatsLoggedAtMostOncePerWindow(prefix, duration);
      var before := Emitted(Idle, prefix, duration);
      var lines := Emitted(Idle, occ, duration);
      if |lines| > |before| && |before| > 0 {
        WindowStartsAtLastLog(prefix, duration);
        assert lines == before + [LogLine(lines[|lines| - 1].count, last.failure, last.at)];
      }
    }
  }

  /**
   * Once the window of the last log line has run out, a repeat of that
   * line's signature is logged, reporting the repeats suppressed since plus
   * itself; the window then restarts with nothing pending.
   */
  lemma ExpiredRepeatLogged(occ: seq<Occurrence>, o: Occurrence, duration: nat)
    requires occ != []
    requires var lines := Emitted(Idle, occ, duration);
             Signature(o.failure) == Signature(lines[|lines| - 1].failure)
             && Expired(lines[|lines| - 1].at, o.at, duration)
    ensures Emitted(Idle, occ + [o], duration) ==
              Emitted(Idle, occ, duration) + [LogLine(Pending(After(Idle, occ, duration)) + 1, o.failure, o.at)]
    ensures After(Idle, occ + [o], duration) == Tracking(Signature(o.failure), o.at, 0)
  {
    WindowStartsAtLastLog(occ, duration);
    FeedOne(Idle, occ, o, duration);
  }

  /**
   * Inside an open window, repeats of the tracked signature are not logged;
   * only the suppressed counter grows, and the window start stays put.
   */
  lemma {:induction false} RepeatsInsideWindowAreSilent(sig: string, start: int, k: nat,
                                                        occ: seq<Occurrence>, duration: nat)
    requires forall i :: 0 <= i < |occ| ==> Signature(occ[i].failure) == sig && !Expired(start, occ[i].at, duration)
    ensures Emitted(Tracking(sig, start, k), occ, duration) == []
    ensures After(Tracking(sig, start, k), occ, duration) == Tracking(sig, start, k + |occ|)
  {
    if occ != [] {
      RepeatsInsideWindowAreSilent(sig, start, k, occ[..|occ| - 1], duration);
    }
  }

  /**
   * For a failure that keeps recurring with one signature, every occurrence
   * is accounted for exactly once: the counts logged so far plus the
   * repeats still pending add up to the number of occurrences.
   */
  lemma {:induction false} EveryRepeatIsCounted(sig: string, occ: seq<Occurrence>, duration: nat)
    requires forall i :: 0 <= i < |occ| ==> Signature(occ[i].failure) == sig
    ensures Reported(Emitted(Idle, occ, duration)) + Pending(After(Idle, occ, duration)) == |occ|
  {
    if occ != [] {
      var prefix := occ[..|occ| - 1];
      EveryRepeatIsCounted(sig, prefix, duration);
      var lines := Emitted(Idle, occ, duration);
      var before := Emitted(Idle, prefix, duration);
      if |lines| > |before| {
        assert lines[..|lines| - 1] == before;
      } else {
        assert lines == before;
      }
    }
  }

  /**
   * The tracker of one supervisor.  lastSignature and watchStart are both
   * unset before the first failure, both set afterwards.
   */
  class RetryWindowTracker {
    const duration: nat
    var lastSignature: Option<string>
    var suppressedCount: nat
    var watchStart: Option<int>

    ghost predicate Valid()
      reads this
    {
      (lastSignature.None? <==> watchStart.None?)
      && (lastSignature.None? ==> suppressedCount == 0)
    }

    /** The abstract state the fields stand for. */
    function State(): WindowState
      reads this
      requires Valid()
    {
      if lastSignature.None? then Idle
      else Tracking(lastSignature.value, watchStart.value, suppressedCount)
    }

    constructor (duration: nat)
      ensures Valid() && State() == Idle && this.duration == duration
    {
      this.duration := duration;
      lastSignature := None;
      suppressedCount := 0;
      watchStart := None;
    }

    /** Decide on a failure with signature `sig` caught at time `now`. */
    method Decide(sig: string, now: int) returns (d: Decision)
      requires Valid()
      modifies this
      ensures Valid()
      ensures (State(), d) == Next(old(State()), sig, now, duration)
    {
      if lastSignature == Some(sig) && !Expired(watchStart.value, now, duration) {
        suppressedCount := suppressedCount + 1;
        d := Suppress;
      } else {
        if lastSignature == Some(sig) {
          d := Emit(suppressedCount + 1);
        } else {
          d := Emit(1);
        }
        lastSignature := Some(sig);
        watchStart := Some(now);
        suppressedCount := 0;
      }
    }
  }
}

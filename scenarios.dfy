/**
 * The ForeverRetryUncaughtExceptionsTest traces, each stated as what the
 * wrapper logs: the target raises Exception('unexpected <id>') at the given
 * clock readings and then returns; the ensured counts are the logged lines.
 */
module RetryScenarios {
  import opened Wrappers
  import opened CauseChain
  import opened RetryWindow
  import opened Supervisor

  function Unexpected(id: string, at: int): Occurrence
  {
    Occurrence(Failure("Exception", "unexpected " + id, None), at)
  }

  /** 'unexpected 1' and 'unexpected 2' are different signatures. */
  lemma IdsDiffer(a: int, b: int)
    ensures Signature(Unexpected("1", a).failure) != Signature(Unexpected("2", b).failure)
  {
    var f, g := Unexpected("1", a).failure, Unexpected("2", b).failure;
    assert f.message[11] != g.message[11];
    SignatureSeparatesMessages(f, g);
  }

  /** Runs the wrapper over the failures followed by a normal return. */
  method RunTrace(occ: seq<Occurrence>) returns (counts: seq<nat>)
    ensures counts == Counts(Emitted(Idle, occ, WindowSeconds))
  {
    TraceCaughtInFull(occ);
    var log, invoked, completed := Supervise(Trace(occ), WindowSeconds);
    assert Trace(occ)[|occ|].Returns?;
    assert completed && invoked == |occ| + 1;
    counts := Counts(log);
  }

  /** The line reporting the count 5 reads "Unexpected exception occurred 5 time(s)". */
  lemma FiveOccurrencesMessage()
    ensures IsInfix("Unexpected exception occurred 5 time(s)", LogMessage(5))
  {
    assert Decimal(5) == "5";
    assert "Unexpected exception occurred " + Decimal(5) + " time(s)" == "Unexpected exception occurred 5 time(s)";
  }

  method OneFailureGivesOneLog() returns (counts: seq<nat>)
    ensures counts == [1]
  {
    counts := RunTrace([Unexpected("1", 0)]);
  }

  method SameTenFailuresInOneMinuteGiveOneLog() returns (counts: seq<nat>)
    ensures counts == [1]
  {
    var occ := [Unexpected("1", 0)];
    var k := 2;
    while k <= 10
      invariant 2 <= k <= 11
      invariant |occ| == k - 1
      invariant Emitted(Idle, occ, WindowSeconds) == [LogLine(1, Unexpected("1", 0).failure, 0)]
      invariant After(Idle, occ, WindowSeconds) == Tracking(Signature(Unexpected("1", 0).failure), 0, k - 2)
    {
      assert (occ + [Unexpected("1", k)])[..|occ|] == occ;
      occ := occ + [Unexpected("1", k)];
      k := k + 1;
    }
    counts := RunTrace(occ);
  }

  /** Appends one failure to a trace, recording what the tracker does with it. */
  method Then(occ: seq<Occurrence>, o: Occurrence) returns (r: seq<Occurrence>)
    ensures r == occ + [o]
    ensures var (next, d) := Next(After(Idle, occ, WindowSeconds), Signature(o.failure), o.at, WindowSeconds);
            After(Idle, r, WindowSeconds) == next
            && Emitted(Idle, r, WindowSeconds) == Emitted(Idle, occ, WindowSeconds)
                 + (if d.Emit? then [LogLine(d.count, o.failure, o.at)] else [])
  {
    FeedOne(Idle, occ, o, WindowSeconds);
    r := occ + [o];
  }

  method SameTwoFailuresInTwoMinutesGiveTwoLogs() returns (counts: seq<nat>)
    ensures counts == [1, 1]
  {
    var t := Then([], Unexpected("1", 0));
    t := Then(t, Unexpected("1", 65));
    counts := RunTrace(t);
  }

  /** The first six failures of the ten-in-two-minutes trace: logged at 0,
      four silent repeats, then logged with count 5 at 106. */
  method UpToFirstExpiry() returns (t: seq<Occurrence>)
    ensures Emitted(Idle, t, WindowSeconds) ==
              [LogLine(1, Unexpected("1", 0).failure, 0), LogLine(5, Unexpected("1", 0).failure, 106)]
    ensures After(Idle, t, WindowSeconds) == Tracking(Signature(Unexpected("1", 0).failure), 106, 0)
  {
    t := Then([], Unexpected("1", 0));
    t := Then(t, Unexpected("1", 12));
    t := Then(t, Unexpected("1", 23));
    t := Then(t, Unexpected("1", 34));
    t := Then(t, Unexpected("1", 45));
    // the four silent repeats are counted here
    t := Then(t, Unexpected("1", 106));
  }

  method SameTenFailuresInTwoMinutesGiveTwoLogs() returns (counts: seq<nat>)
    ensures counts == [1, 5]
  {
    var t := UpToFirstExpiry();
    t := Then(t, Unexpected("1", 117));
    t := Then(t, Unexpected("1", 128));
    t := Then(t, Unexpected("1", 139));
    t := Then(t, Unexpected("1", 150));
    counts := RunTrace(t);
    FiveOccurrencesMessage();
  }

  method MixedFourFailuresInOneMinuteGiveTwoLogs() returns (counts: seq<nat>)
    ensures counts == [1, 1]
  {
    var t := Then([], Unexpected("1", 0));
    t := Then(t, Unexpected("1", 5));
    // the repeat of 'unexpected 1' is dropped when the signature changes
    IdsDiffer(5, 10);
    t := Then(t, Unexpected("2", 10));
    t := Then(t, Unexpected("2", 25));
    counts := RunTrace(t);
  }

  method MixedFourFailuresInTwoMinutesGiveTwoLogs() returns (counts: seq<nat>)
    ensures counts == [1, 1]
  {
    var t := Then([], Unexpected("1", 0));
    t := Then(t, Unexpected("1", 10));
    IdsDiffer(10, 100);
    t := Then(t, Unexpected("2", 100));
    t := Then(t, Unexpected("2", 110));
    counts := RunTrace(t);
  }

  method MixedFourFailuresInTwoMinutesGiveThreeLogs() returns (counts: seq<nat>)
    ensures counts == [1, 2, 1]
  {
    var t := Then([], Unexpected("1", 0));
    t := Then(t, Unexpected("1", 10));
    t := Then(t, Unexpected("1", 100));
    IdsDiffer(100, 110);
    t := Then(t, Unexpected("2", 110));
    counts := RunTrace(t);
  }
}

/**
 * save_and_reraise_exception: a guard entered while a failure is being
 * handled.  On leaving the scope it re-raises the saved failure, suppresses
 * it, or lets a failure raised inside the scope take over (logging the
 * dropped original at error level).
 */
module ReraiseGuard {
  import opened Wrappers
  import opened CauseChain

  /** Where the dropped failure is reported: the module's default logger or
      the logger handed to the guard. */
  datatype Logger = DefaultLogger | GivenLogger(name: string)

  datatype Level = Error

  /** The log record written for a dropped original failure. */
  datatype DroppedRecord = DroppedRecord(sink: Logger, level: Level, dropped: Failure,
                                         replacement: Failure)

  /** The guard as it stands on scope exit: the failure saved on entry, the
      reraise flag (which the body may have reassigned) and the logger. */
  datatype Guard = Guard(original: Failure, reraise: bool, logger: Logger)

  /** What leaving the scope does: which failure propagates, if any, and the
      record logged, if any. */
  datatype Exit = Exit(propagates: Option<Failure>, logged: Option<DroppedRecord>)

  /** Entering the guard while `inFlight` is being handled. */
  function Enter(inFlight: Failure, reraise: bool, logger: Logger): (g: Guard)
    ensures g.original == inFlight && g.reraise == reraise && g.logger == logger
  {
    Guard(inFlight, reraise, logger)
  }

  /**
   * The exit decision.  `raised` is the failure the body raised, if any.
   * A new failure always propagates; the original is logged as dropped only
   * when reraise is set.  With nothing raised, the original propagates
   * unchanged exactly when reraise is set.
   */
  function LeaveScope(g: Guard, raised: Option<Failure>): (r: Exit)
    ensures raised.Some? ==> r.propagates == raised
    ensures raised.None? ==> (r.propagates.Some? <==> g.reraise)
    ensures raised.None? && r.propagates.Some? ==> r.propagates.value == g.original
    ensures r.logged.Some? <==> raised.Some? && g.reraise
    ensures r.logged.Some? ==>
              r.logged.value == DroppedRecord(g.logger, Error, g.original, raised.value)
  {
    match raised
    case Some(newer) =>
      Exit(raised, if g.reraise then Some(DroppedRecord(g.logger, Error, g.original, newer)) else None)
    case None =>
      Exit(if g.reraise then Some(g.original) else None, None)
  }

  /** The guard never converts a failure: whatever propagates is either the
      saved original, untouched, or the body's own new failure. */
  lemma NeverConverts(g: Guard, raised: Option<Failure>)
    ensures var r := LeaveScope(g, raised);
            r.propagates.None? || r.propagates == Some(g.original) || r.propagates == raised
  {
  }

  /** With reraise set the original is never lost silently: it either
      propagates or is logged as dropped. */
  lemma OriginalNeverLostWhenReraising(g: Guard, raised: Option<Failure>)
    requires g.reraise
    ensures var r := LeaveScope(g, raised);
            r.propagates == Some(g.original) || (r.logged.Some? && r.logged.value.dropped == g.original)
  {
  }

  /** With reraise cleared nothing is ever logged, and a body that raises
      nothing leaves no failure propagating. */
  lemma ClearedReraiseIsQuiet(g: Guard, raised: Option<Failure>)
    requires !g.reraise
    ensures LeaveScope(g, raised).logged.None?
    ensures LeaveScope(g, raised).propagates == raised
  {
  }

  /** The SaveAndReraiseTest cases. */
  lemma SaveAndReraiseScenarios()
    // test_save_and_reraise_exception: the original propagates, message 'foo'
    ensures var orig := Failure("Exception", "foo", None);
            LeaveScope(Enter(orig, true, DefaultLogger), None).propagates == Some(orig)
    // test_save_and_reraise_exception_dropped: the second failure wins, error logged
    ensures var orig := Failure("Exception", "dropped", None);
            var newer := Failure("Exception", "second exception", None);
            var r := LeaveScope(Enter(orig, true, DefaultLogger), Some(newer));
            r.propagates == Some(newer) && r.logged.Some? && r.logged.value.level == Error
    // test_save_and_reraise_exception_no_reraise: ctxt.reraise = False in the body
    ensures var orig := Failure("Exception", "foo", None);
            LeaveScope(Enter(orig, true, DefaultLogger).(reraise := false), None) == Exit(None, None)
    // test_save_and_reraise_exception_dropped_no_reraise: nothing logged
    ensures var orig := Failure("Exception", "dropped", None);
            var newer := Failure("Exception", "second exception", None);
            LeaveScope(Enter(orig, false, DefaultLogger), Some(newer)) == Exit(Some(newer), None)
    // test_save_and_reraise_exception_provided_logger: the given logger gets the error
    ensures var orig := Failure("Exception", "foo", None);
            var newer := Failure("Exception", "second exception", None);
            var r := LeaveScope(Enter(orig, true, GivenLogger("fake_logger")), Some(newer));
            r.logged.Some? && r.logged.value.sink == GivenLogger("fake_logger")
  {
  }
}

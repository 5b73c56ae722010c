# oslo.utils `excutils`: failure handling helpers, modelled in Dafny

This project models three helpers from `oslo_utils.excutils` as they appear in their test suite:

- **Cause chaining** (`raise_with_cause`, `CausedByException.pformat`). A failure has a kind (its class name), a message and an optional cause. The cause is either given explicitly or taken from the failure currently being handled. The rendering names the kind and message of every failure in the chain, outer to inner. Module `CauseChain`, file `cause_chain.dfy`.
- **The save-and-reraise guard** (`save_and_reraise_exception`). It is entered while a failure is being handled. On exit it does one of three things: re-raises the saved failure, suppresses it (when `reraise` is false), or lets a failure raised inside the scope take over. In the last case the dropped original is logged at error level, but only when `reraise` is set. Module `ReraiseGuard`, file `reraise_guard.dfy`.
- **The forever-retry wrapper** (`forever_retry_uncaught_exceptions`). It calls its target until a call returns, absorbing every failure. A rate limiter decides for each caught failure whether to log `Unexpected exception occurred <n> time(s)` now, and with which count.
  - The limiter is the class `RetryWindow.RetryWindowTracker`. It has three fields: the last signature, the suppressed count and the stopwatch start. Its method `Decide` is proved against the pure decision function `Next`.
  - The wrapper loop is `Supervisor.Supervise`. It is proved to log exactly the lines `Emitted` defines for the caught failures.
  - The contract of `Next` and lemmas about `After` and `Emitted` state the rate limit. These cover: first failure logged at once; repeats inside a window silent; expiry reports suppressed + 1; a signature change logs at once and drops the old count; consecutive lines for one signature are at least one window apart; every repeat is accounted for.
  - Files `retry_window.dfy` and `supervisor.dfy`. Each test trace is stated in `scenarios.dfy` as a proved fact about the counts `Supervise` logs.

Modelling decisions:
- A failure's signature is its text, kind name and message (`CauseChain.Signature`).
- Time is an integer clock reading taken once per caught failure. The window restarts at the reading of the failure that was logged.
- A window has run out when `now - start >= duration`. The traces in the tests never land exactly on the 60-second boundary, so they do not decide between `>=` and `>`. `>=` is an assumption here.
- The ambient "exception being handled" is an explicit `handling` argument of `RaiseWithCause`. For the guard, it is the `inFlight` argument of `Enter`.
- The body of a guarded scope may reassign `ctxt.reraise`. This is modelled by passing the guard as it stands at exit (`g.(reraise := false)`).
- The wrapper is usually documented as running forever. The tests (`exc_retrier_common_end`) have the target return normally, and the wrapper then returns. The model follows the tests: `Supervise` stops at the first normal return.
- The dropped original is logged only when `reraise` is set, as the test at oslo_utils/tests/test_excutils.py:119 asserts. Descriptions of the guard that have it logged regardless of `reraise` are not followed.

## Model

| member | source | states |
|---|---|---|
| CauseChain.RaiseWithCause | oslo_utils/tests/test_excutils.py:39-58 | The raised failure has the given kind and message. An explicit cause becomes its cause. Without one, the failure being handled becomes its cause. It has no cause only when neither exists. |
| CauseChain.Chain | oslo_utils/tests/test_excutils.py:44-46 | The chain starts at the failure. Each link's cause is the next link. The last link has no cause. |
| CauseChain.Render | oslo_utils/tests/test_excutils.py:45-47 | `pformat`: the rendering begins with the failure's own line and, when there is a cause, continues with the cause separator. |
| CauseChain.RenderListsChainInOrder | oslo_utils/tests/test_excutils.py:45-47 | The rendering equals the lines of the chain joined outer to inner, so cause order is fixed. |
| CauseChain.RenderOmitsMissingCause | oslo_utils/tests/test_excutils.py:45-47 | A failure renders as its own line alone iff it has no cause; with a cause the rendering is strictly longer. |
| CauseChain.RenderMentionsEveryCause | oslo_utils/tests/test_excutils.py:45-47 | For every failure in the chain, its kind name and its message both occur in the rendering. |
| CauseChain.ExplicitCauseIsRendered | oslo_utils/tests/test_excutils.py:39-47 | With an explicit cause, `.cause` is that failure and the rendering contains its kind name and message. |
| CauseChain.ImplicitCauseIsRendered | oslo_utils/tests/test_excutils.py:49-61 | Raised while handling a failure, without an explicit cause: `.cause` is the handled failure and the rendering contains its kind name and message. |
| CauseChain.CausedByScenarios | oslo_utils/tests/test_excutils.py:29-61 | Both CausedByTest cases: the cause is a Fail2, and the rendering contains "I have been broken" and "Fail2". |
| CauseChain.Signature | oslo_utils/tests/test_excutils.py:165-166 | The identity compared between caught failures starts with the kind name and ends with the message, which can be read back from it. |
| CauseChain.SignatureSeparatesMessages | oslo_utils/tests/test_excutils.py:165-166 | Two failures of one kind with different messages have different signatures. |
| ReraiseGuard.Enter | oslo_utils/tests/test_excutils.py:72-73 | The guard saves the failure being handled, together with its reraise flag and logger. |
| ReraiseGuard.LeaveScope | oslo_utils/tests/test_excutils.py:64-131 | A failure raised in the body always propagates. With nothing raised, the saved original propagates unchanged iff reraise is set. A drop record is logged iff the body raised and reraise is set. That record is at error level, goes to the guard's logger, and names the original and its replacement. |
| ReraiseGuard.NeverConverts | oslo_utils/tests/test_excutils.py:66-93 | What propagates is nothing, the saved original, or the body's own failure, never anything else. |
| ReraiseGuard.OriginalNeverLostWhenReraising | oslo_utils/tests/test_excutils.py:80-94 | With reraise set, the original either propagates or is logged as dropped. |
| ReraiseGuard.ClearedReraiseIsQuiet | oslo_utils/tests/test_excutils.py:96-119 | With reraise cleared nothing is logged, and exactly what the body raised propagates. |
| ReraiseGuard.SaveAndReraiseScenarios | oslo_utils/tests/test_excutils.py:66-131 | The five SaveAndReraiseTest cases, including `ctxt.reraise = False` set in the body and a supplied logger. |
| RetryWindow.Next | oslo_utils/tests/test_excutils.py:183-288 | A first or changed signature is emitted with count 1. A repeat is suppressed exactly while its window is open, and then only the counter grows. A repeat after expiry is emitted with count suppressed + 1. Every emission restarts the window at `now` and resets the counter; afterwards the new signature is tracked. |
| RetryWindow.ExpiryBoundary | oslo_utils/tests/test_excutils.py:201-229 | The stopwatch check `Expired`: the window is open strictly before start + duration and expired from that reading on (the assumed `>=`), and a later reading never reopens it. |
| RetryWindow.After | oslo_utils/tests/test_excutils.py:162-175 | Once any failure was fed, the tracker tracks the signature of the last one. |
| RetryWindow.Emitted | oslo_utils/tests/test_excutils.py:170-172 | The `logging.exception` calls for a run: at most one per caught failure, and at least one once a fresh tracker caught anything. |
| RetryWindow.FeedSplits | oslo_utils/tests/test_excutils.py:142-147 | Feeding a trace in two pieces gives the same state and the same lines as feeding it at once. |
| RetryWindow.CountsArePositive | oslo_utils/tests/test_excutils.py:170-172 | Every logged count is at least 1. |
| RetryWindow.WindowStartsAtLastLog | oslo_utils/tests/test_excutils.py:201-229 | From a fresh tracker, once anything was caught, a line was logged. The window starts at the last line's time, and the tracked signature is that line's. |
| RetryWindow.SignatureChangeLoggedAtOnce | oslo_utils/tests/test_excutils.py:231-288 | The first failure, or one whose signature differs from the previous, is logged at once with count 1, expired window or not. The window restarts with nothing pending, so earlier repeats are dropped. |
| RetryWindow.RepeatsLoggedAtMostOncePerWindow | oslo_utils/tests/test_excutils.py:189-229 | For any trace, of two consecutive log lines with the same signature, the later is at least one window after the earlier. |
| RetryWindow.ExpiredRepeatLogged | oslo_utils/tests/test_excutils.py:201-229 | For any run, a repeat of the last logged signature arriving once that line's window has run out is logged with count = repeats pending + 1, and the window restarts with nothing pending. |
| RetryWindow.RepeatsInsideWindowAreSilent | oslo_utils/tests/test_excutils.py:189-199 | Repeats of the tracked signature before the window runs out log nothing. The counter grows by their number and the window start stays put. |
| RetryWindow.EveryRepeatIsCounted | oslo_utils/tests/test_excutils.py:210-229 | For a single recurring signature, the counts logged plus the repeats still pending equal the number of occurrences. |
| RetryWindow.RetryWindowTracker.constructor | oslo_utils/tests/test_excutils.py:142-143 | A new tracker tracks nothing and has the given window duration. |
| RetryWindow.RetryWindowTracker.Decide | oslo_utils/tests/test_excutils.py:162-175 | Updates the last signature, counter and stopwatch start in place. The new state and the decision are exactly `Next` of the old state. |
| Supervisor.ReturnIndex | oslo_utils/tests/test_excutils.py:142-147 | Every call before the returned index raised. The call at that index, if any, returned. |
| Supervisor.Attempts | oslo_utils/tests/test_excutils.py:142-147 | The caught failures are, in order, those raised before the first normal return. |
| Supervisor.Supervise | oslo_utils/tests/test_excutils.py:142-180 | Every failure is absorbed and the target called again. The wrapper completes iff some call returns, after exactly that many calls. Its log is exactly the rate limiter's lines for the caught failures. |
| Supervisor.Decimal | oslo_utils/tests/test_excutils.py:171-172 | The count is written as a non-empty string of decimal digits. |
| Supervisor.DecimalRoundTrip | oslo_utils/tests/test_excutils.py:171-172 | The digits written for a count read back as that count. |
| Supervisor.LogMessage | oslo_utils/tests/test_excutils.py:170-172 | The logged text contains `Unexpected exception occurred <n> time(s)`. |
| Supervisor.TraceCaughtInFull | oslo_utils/tests/test_excutils.py:177-180 | When the target raises a list of failures and then returns, the wrapper catches exactly that list. |
| RetryScenarios.RunTrace | oslo_utils/tests/test_excutils.py:177-180 | Running the wrapper on failures followed by a return yields the counts the rate limiter emits. |
| RetryScenarios.FiveOccurrencesMessage | oslo_utils/tests/test_excutils.py:219-222 | The line reporting count 5 contains `Unexpected exception occurred 5 time(s)`. |
| RetryScenarios.OneFailureGivesOneLog | oslo_utils/tests/test_excutils.py:183-187 | One failure at t=0 logs count 1. |
| RetryScenarios.SameTenFailuresInOneMinuteGiveOneLog | oslo_utils/tests/test_excutils.py:189-199 | Repeats at t=2..10 after t=0 log only [1]. |
| RetryScenarios.SameTwoFailuresInTwoMinutesGiveTwoLogs | oslo_utils/tests/test_excutils.py:201-208 | Failures at t=0 and t=65 log [1, 1]. |
| RetryScenarios.UpToFirstExpiry | oslo_utils/tests/test_excutils.py:212-222 | The first six failures of that test log count 1 at t=0 and count 5 at t=106, leaving the window restarted at 106 with nothing pending. |
| RetryScenarios.SameTenFailuresInTwoMinutesGiveTwoLogs | oslo_utils/tests/test_excutils.py:210-229 | Four silent repeats, then expiry at t=106, log [1, 5]. The repeats at t=117..150 are silent. |
| RetryScenarios.MixedFourFailuresInOneMinuteGiveTwoLogs | oslo_utils/tests/test_excutils.py:231-254 | 1@0, 1@5, 2@10, 2@25 log [1, 1]. The repeat of 'unexpected 1' is dropped. |
| RetryScenarios.MixedFourFailuresInTwoMinutesGiveTwoLogs | oslo_utils/tests/test_excutils.py:256-272 | 1@0, 1@10, 2@100, 2@110 log [1, 1]. |
| RetryScenarios.MixedFourFailuresInTwoMinutesGiveThreeLogs | oslo_utils/tests/test_excutils.py:274-289 | 1@0, 1@10, 1@100, 2@110 log [1, 2, 1]. |

## Left out

- `excutils.py` and `timeutils.py` are not part of this model. Only what their tests assert is modelled, not their internals.
- Logging is an emitted list of records (`LogLine`, `DroppedRecord`), not a logging backend. The traceback that `logging.exception` appends is not modelled, and neither is any text after `time(s)`.
- The one-second `time.sleep` between retries is left out, because it has no observable effect on the decisions.
- The stopwatch's clock reads are left out. The tests count how many times `timeutils.now()` is read per step, which reflects stopwatch internals. The model uses one reading per caught failure and restarts the window at that reading.
- The exact 60-second boundary is an assumption, as noted above. Expiry uses `>=`, and the window duration is a parameter (`WindowSeconds` = 60 for the wrapper).
- Infinite running is not modelled. Call traces are finite; a trace with no normal return ends with `completed == false` after every call was made.
- Python's ambient exception state (`sys.exc_info`) is replaced by explicit arguments. The guard is always entered with a failure in flight, so entering it outside a handler is not modelled.
- CauseChain.Render: the exact `pformat` layout is not modelled. That covers indentation and showing the outer class name. The model renders each failure as `kind: message` and joins the lines with a fixed separator. The tests only check that the text contains the cause's kind name and message.
- Concurrency: the tracker belongs to one wrapper invocation and is not shared, so no locking is modelled.

/**
 * Exception cause chaining: a failure may carry the lower-level failure that
 * triggered it, and its rendering names every failure of the chain, outer to
 * inner.  Python's ambient "exception currently being handled" becomes an
 * explicit argument.
 */
module CauseChain {
  import opened Wrappers

  /** A raised error: its class name, its message and its optional cause.
      Being an inductive datatype, every chain is finite and acyclic. */
  datatype Failure = Failure(kind: string, message: string, cause: Option<Failure>)

  /** The identity used to tell repeated failures apart: the failure's own
      text, kind name and message. */
  function Signature(f: Failure): (r: string)
    ensures f.kind <= r && |r| == |f.kind| + 2 + |f.message| && r[|f.kind| + 2..] == f.message
  {
    Line(f)
  }

  /** Two failures of one kind with different messages have different
      signatures (so 'unexpected 1' and 'unexpected 2' are told apart). */
  lemma SignatureSeparatesMessages(f: Failure, g: Failure)
    requires f.kind == g.kind && f.message != g.message
    ensures Signature(f) != Signature(g)
  {
    var n := |f.kind| + 2;
    assert Signature(f)[n..] == f.message;
    assert Signature(g)[n..] == g.message;
  }

  /**
   * raise_with_cause: builds the failure that is raised.  An explicit cause
   * wins; without one, the failure being handled (if any) becomes the cause.
   */
  function RaiseWithCause(kind: string, message: string, cause: Option<Failure>,
                          handling: Option<Failure>): (r: Failure)
    ensures r.kind == kind && r.message == message
    ensures cause.Some? ==> r.cause == cause
    ensures cause.None? ==> r.cause == handling
    ensures r.cause.None? <==> cause.None? && handling.None?
  {
    Failure(kind, message, if cause.Some? then cause else handling)
  }

  /** The chain as a list: the failure itself, then its cause, its cause's
      cause, and so on down to a failure without a cause. */
  function Chain(f: Failure): (r: seq<Failure>)
    ensures |r| >= 1 && r[0] == f
    ensures forall i :: 0 <= i < |r| - 1 ==> r[i].cause == Some(r[i + 1])
    ensures r[|r| - 1].cause.None?
  {
    match f.cause
    case None => [f]
    case Some(c) => [f] + Chain(c)
  }

  /** One line of the rendering: kind name and message. */
  function Line(f: Failure): string
  {
    f.kind + ": " + f.message
  }

  /** Separator put between one failure and its cause. */
  const CauseSeparator: string := "\nCaused by: "

  /** The rendering (pformat): the failure's line, then its cause's
      rendering after a separator; no cause section when there is no cause. */
  function Render(f: Failure): (r: string)
    ensures Line(f) <= r
    ensures f.cause.Some? ==> Line(f) + CauseSeparator <= r
  {
    match f.cause
    case None => Line(f)
    case Some(c) => Line(f) + CauseSeparator + Render(c)
  }

  /** Lines joined by the separator, in the order given. */
  function Join(lines: seq<string>): string
  {
    if |lines| == 0 then ""
    else if |lines| == 1 then lines[0]
    else lines[0] + CauseSeparator + Join(lines[1..])
  }

  /** The lines of a list of failures, in order. */
  function Lines(fs: seq<Failure>): (r: seq<string>)
    ensures |r| == |fs|
    ensures forall i :: 0 <= i < |fs| ==> r[i] == Line(fs[i])
  {
    seq(|fs|, i requires 0 <= i < |fs| => Line(fs[i]))
  }

  /** The rendering lists the chain outer-to-inner, one line per failure:
      it agrees with joining the lines of Chain(f) in order. */
  lemma {:induction false} RenderListsChainInOrder(f: Failure)
    ensures Render(f) == Join(Lines(Chain(f)))
  {
    match f.cause
    case None =>
    case Some(c) =>
      RenderListsChainInOrder(c);
      assert Lines(Chain(f)) == [Line(f)] + Lines(Chain(c));
      assert Lines(Chain(f))[1..] == Lines(Chain(c));
  }

  /** A failure without a cause renders as its own line only, with no empty
      cause section; one with a cause renders strictly longer. */
  lemma RenderOmitsMissingCause(f: Failure)
    ensures f.cause.None? <==> Render(f) == Line(f)
    ensures f.cause.Some? ==> |Render(f)| > |Line(f)|
  {
  }

  /** t occurs as a contiguous piece of s. */
  predicate IsInfix(t: string, s: string)
    decreases |s|
  {
    |t| <= |s| && (s[..|t|] == t || IsInfix(t, s[1..]))
  }

  lemma InfixOfPrefix(t: string, u: string)
    ensures IsInfix(t, t + u)
  {
    assert (t + u)[..|t|] == t;
  }

  lemma {:induction false} InfixExtendRight(t: string, s: string, u: string)
    requires IsInfix(t, s)
    ensures IsInfix(t, s + u)
    decreases |s|
  {
    assert (s + u)[..|t|] == s[..|t|];
    if s[..|t|] != t {
      InfixExtendRight(t, s[1..], u);
      assert (s + u)[1..] == s[1..] + u;
    }
  }

  lemma {:induction false} InfixExtendLeft(t: string, p: string, s: string)
    requires IsInfix(t, s)
    ensures IsInfix(t, p + s)
    decreases |p|
  {
    if p == [] {
      assert p + s == s;
    } else {
      InfixExtendLeft(t, p[1..], s);
      assert (p + s)[1..] == p[1..] + s;
    }
  }

  /** Kind name and message of a failure both occur in its line. */
  lemma LineMentions(f: Failure)
    ensures IsInfix(f.kind, Line(f)) && IsInfix(f.message, Line(f))
  {
    InfixOfPrefix(f.kind, ": " + f.message);
    assert Line(f) == f.kind + (": " + f.message);
    InfixOfPrefix(f.message, []);
    assert f.message + [] == f.message;
    InfixExtendLeft(f.message, f.kind + ": ", f.message);
  }

  /** The rendering names the kind and the message of every failure of the
      chain, the outermost and every cause transitively. */
  lemma {:induction false} RenderMentionsEveryCause(f: Failure, g: Failure)
    requires g in Chain(f)
    ensures IsInfix(g.kind, Render(f)) && IsInfix(g.message, Render(f))
  {
    match f.cause
    case None =>
      assert g == f;
      LineMentions(f);
    case Some(c) =>
      var rest := CauseSeparator + Render(c);
      assert Render(f) == Line(f) + rest;
      if g == f {
        LineMentions(f);
        InfixExtendRight(f.kind, Line(f), rest);
        InfixExtendRight(f.message, Line(f), rest);
      } else {
        assert g in Chain(c);
        RenderMentionsEveryCause(c, g);
        assert Render(f) == (Line(f) + CauseSeparator) + Render(c);
        InfixExtendLeft(g.kind, Line(f) + CauseSeparator, Render(c));
        InfixExtendLeft(g.message, Line(f) + CauseSeparator, Render(c));
      }
  }

  /** raise_with_cause with an explicit cause: the raised failure's cause is
      that failure and the rendering names its kind and message. */
  lemma ExplicitCauseIsRendered(kind: string, message: string, c: Failure,
                                handling: Option<Failure>)
    ensures RaiseWithCause(kind, message, Some(c), handling).cause == Some(c)
    ensures IsInfix(c.kind, Render(RaiseWithCause(kind, message, Some(c), handling)))
    ensures IsInfix(c.message, Render(RaiseWithCause(kind, message, Some(c), handling)))
  {
    var e := RaiseWithCause(kind, message, Some(c), handling);
    assert Chain(e)[1] == c;
    RenderMentionsEveryCause(e, c);
  }

  /** raise_with_cause inside a handler, without an explicit cause: the
      handled failure becomes the cause and is rendered. */
  lemma ImplicitCauseIsRendered(kind: string, message: string, handled: Failure)
    ensures RaiseWithCause(kind, message, None, Some(handled)).cause == Some(handled)
    ensures IsInfix(handled.kind, Render(RaiseWithCause(kind, message, None, Some(handled))))
    ensures IsInfix(handled.message, Render(RaiseWithCause(kind, message, None, Some(handled))))
  {
    var e := RaiseWithCause(kind, message, None, Some(handled));
    assert Chain(e)[1] == handled;
    RenderMentionsEveryCause(e, handled);
  }

  /** test_caused_by_explicit and test_caused_by_implicit: Fail1 "I was
      broken" caused by Fail2 "I have been broken". */
  lemma CausedByScenarios()
    ensures var e := RaiseWithCause("Fail1", "I was broken",
                                    Some(Failure("Fail2", "I have been broken", None)), None);
            e.cause.Some? && e.cause.value.kind == "Fail2"
            && IsInfix("I have been broken", Render(e)) && IsInfix("Fail2", Render(e))
    ensures var e := RaiseWithCause("Fail1", "I was broken", None,
                                    Some(Failure("Fail2", "I have been broken", None)));
            e.cause.Some? && e.cause.value.kind == "Fail2"
            && IsInfix("I have been broken", Render(e)) && IsInfix("Fail2", Render(e))
  {
    var c := Failure("Fail2", "I have been broken", None);
    ExplicitCauseIsRendered("Fail1", "I was broken", c, None);
    ImplicitCauseIsRendered("Fail1", "I was broken", c);
  }
}

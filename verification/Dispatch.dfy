/** Handler results and what each dispatch loop of connection.go makes of them. */
module Dispatch {
  import opened Options

  // The error a handler returns: nil, any other error, or a *HandlerError.
  datatype HandlerResult =
    | Nil
    | Plain
    | Flagged(defaultPrevented: bool, propagationStopped: bool)

  // The loops over c.Handlers, one per handler interface.
  datatype Loop =
    | InitLoop | TerminateLoop | ConnStartLoop | SubStartLoop
    | ConnStopLoop | SubStopLoop | CloseLoop | PongLoop | RecoverLoop

  /** Does the loop end with this result, leaving later handlers uncalled? */
  predicate Decisive(loop: Loop, r: HandlerResult) {
    match loop
    case InitLoop => r.Plain? || (r.Flagged? && (r.propagationStopped || !r.defaultPrevented))
    case CloseLoop => r.Plain? || (r.Flagged? && r.propagationStopped)
    case PongLoop => !r.Nil?
    case ConnStartLoop => false
    case ConnStopLoop => false
    case _ => r.Flagged? && r.propagationStopped
  }

  // A registered handler: for each interface it implements, the result it returns.
  datatype Handler = Handler(answers: map<Loop, HandlerResult>)

  predicate Implements(h: Handler, loop: Loop) {
    loop in h.answers
  }

  // ---------------------------------------------------------------------------
  // Recursive specification
  // ---------------------------------------------------------------------------

  /** Positions of the handlers a loop calls among hs[k..], in call order. */
  function Calls(loop: Loop, hs: seq<Handler>, k: nat): seq<nat>
    requires k <= |hs|
    decreases |hs| - k
  {
    if k == |hs| then []
    else if !Implements(hs[k], loop) then Calls(loop, hs, k + 1)
    else if Decisive(loop, hs[k].answers[loop]) then [k]
    else [k] + Calls(loop, hs, k + 1)
  }

  /** The result that ends the loop, if any. */
  function Verdict(loop: Loop, hs: seq<Handler>, k: nat): Option<HandlerResult>
    requires k <= |hs|
    decreases |hs| - k
  {
    if k == |hs| then None
    else if Implements(hs[k], loop) && Decisive(loop, hs[k].answers[loop]) then Some(hs[k].answers[loop])
    else Verdict(loop, hs, k + 1)
  }

  // ---------------------------------------------------------------------------
  // Declarative reading
  // ---------------------------------------------------------------------------

  ghost predicate IsDecisive(loop: Loop, hs: seq<Handler>, i: nat) {
    i < |hs| && Implements(hs[i], loop) && Decisive(loop, hs[i].answers[loop])
  }

  /** Handler i is reached: it implements the interface and no earlier result is decisive. */
  ghost predicate Reached(loop: Loop, hs: seq<Handler>, i: nat) {
    i < |hs| && Implements(hs[i], loop) && forall j :: 0 <= j < i ==> !IsDecisive(loop, hs, j)
  }

  ghost predicate Increasing(s: seq<nat>) {
    forall i, j :: 0 <= i < j < |s| ==> s[i] < s[j]
  }

  lemma {:induction false} CallsFrom(loop: Loop, hs: seq<Handler>, k: nat)
    requires k <= |hs| && forall j :: 0 <= j < k ==> !IsDecisive(loop, hs, j)
    ensures forall i: nat :: i in Calls(loop, hs, k) <==> k <= i && Reached(loop, hs, i)
    ensures Increasing(Calls(loop, hs, k))
    decreases |hs| - k
  {
    if k < |hs| {
      if IsDecisive(loop, hs, k) {
        assert Reached(loop, hs, k);
      } else {
        CallsFrom(loop, hs, k + 1);
        if Implements(hs[k], loop) {
          assert Reached(loop, hs, k);
          var rest := Calls(loop, hs, k + 1);
          assert forall i :: 0 <= i < |rest| ==> rest[i] in rest;
        }
      }
    }
  }

  lemma {:induction false} VerdictFrom(loop: Loop, hs: seq<Handler>, k: nat)
    requires k <= |hs| && forall j :: 0 <= j < k ==> !IsDecisive(loop, hs, j)
    ensures Verdict(loop, hs, k) == None <==> forall j :: 0 <= j < |hs| ==> !IsDecisive(loop, hs, j)
    ensures Verdict(loop, hs, k).Some? ==>
              exists i: nat :: Reached(loop, hs, i) && IsDecisive(loop, hs, i)
                               && Verdict(loop, hs, k) == Some(hs[i].answers[loop])
    decreases |hs| - k
  {
    if k < |hs| {
      if IsDecisive(loop, hs, k) {
        assert Reached(loop, hs, k);
      } else {
        VerdictFrom(loop, hs, k + 1);
      }
    }
  }

  /** Every loop calls, in registration order and once each, exactly the handlers of
      its kind up to and including the first decisive one, whose result is the verdict. */
  lemma CallsAreReached(loop: Loop, hs: seq<Handler>)
    ensures forall i: nat :: i in Calls(loop, hs, 0) <==> Reached(loop, hs, i)
    ensures Increasing(Calls(loop, hs, 0))
    ensures Verdict(loop, hs, 0) == None <==> forall j :: 0 <= j < |hs| ==> !IsDecisive(loop, hs, j)
    ensures Verdict(loop, hs, 0).Some? ==>
              exists i: nat :: Reached(loop, hs, i) && IsDecisive(loop, hs, i)
                               && Verdict(loop, hs, 0) == Some(hs[i].answers[loop])
  {
    CallsFrom(loop, hs, 0);
    VerdictFrom(loop, hs, 0);
  }

  /** The decisive handler that is reached is the one whose result counts. */
  lemma {:induction false} VerdictOf(loop: Loop, hs: seq<Handler>, i: nat, k: nat)
    requires k <= i && Reached(loop, hs, i) && IsDecisive(loop, hs, i)
    ensures Verdict(loop, hs, k) == Some(hs[i].answers[loop])
    decreases i - k
  {
    if k < i {
      assert !IsDecisive(loop, hs, k);
      VerdictOf(loop, hs, i, k + 1);
    }
  }

  /** Handler j answers this interface by stopping the propagation. */
  predicate StopsPropagation(loop: Loop, hs: seq<Handler>, j: nat) {
    j < |hs| && Implements(hs[j], loop) && hs[j].answers[loop].Flagged? && hs[j].answers[loop].propagationStopped
  }

  predicate FailsPlainly(loop: Loop, hs: seq<Handler>, j: nat) {
    j < |hs| && Implements(hs[j], loop) && hs[j].answers[loop].Plain?
  }

  /** The answers after which a loop calls the next handler: nil, or a HandlerError that
      prevents the default without stopping the propagation, in the init loop; anything
      in the loops of ConnectionStart and ConnectionStop handlers; nil in the pong loop;
      anything but a plain error and a propagation stop in the close loop; anything but a
      propagation stop in the others. */
  ghost predicate LetsPass(loop: Loop, r: HandlerResult) {
    match loop
    case InitLoop => r == Nil || r == Flagged(true, false)
    case PongLoop => r == Nil
    case ConnStartLoop => true
    case ConnStopLoop => true
    case CloseLoop => r != Plain && (r.Flagged? ==> !r.propagationStopped)
    case SubStartLoop => r.Flagged? ==> !r.propagationStopped
    case SubStopLoop => r.Flagged? ==> !r.propagationStopped
    case TerminateLoop => r.Flagged? ==> !r.propagationStopped
    case RecoverLoop => r.Flagged? ==> !r.propagationStopped
  }

  /** A handler is called iff it implements the interface and every handler before it
      that does answered so that the loop went on. */
  lemma WhoIsCalled(loop: Loop, hs: seq<Handler>, i: nat)
    ensures i in Calls(loop, hs, 0) <==>
              && i < |hs| && loop in hs[i].answers
              && forall j :: 0 <= j < i && loop in hs[j].answers ==> LetsPass(loop, hs[j].answers[loop])
  {
    CallsAreReached(loop, hs);
    assert forall j: nat :: j < |hs| && loop in hs[j].answers ==>
                              (IsDecisive(loop, hs, j) <==> !LetsPass(loop, hs[j].answers[loop]));
  }
}

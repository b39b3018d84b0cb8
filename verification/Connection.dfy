/** The sequential code of connection.go: the dispatch loops, gqlStart, gqlStop and
    the body of close, each run without interruption. What a call does to the outside
    is recorded in `effects`; whether the attempted sends block is the business of the
    step machine. */
module Connection {
  import opened Options
  import opened Ast
  import opened Subscriptions
  import opened Dispatch
  import M = Machine

  datatype Effect =
    | Called(loop: Loop, handler: nat)   // handler number `handler` was called
    | TrySend(m: M.OutMsg)               // a send on outgoingMessages
    | TryEof                             // a send of the EOF on incomingMessages
    | WriteState(v: M.ConnState)
    | Store(id: string)
    | CloseShutdown | CloseOutgoing | CloseIncoming | CloseSocket

  // ---------------------------------------------------------------------------
  // Specification
  // ---------------------------------------------------------------------------

  function CallEffects(loop: Loop, calls: seq<nat>): seq<Effect> {
    seq(|calls|, i requires 0 <= i < |calls| => Called(loop, calls[i]))
  }

  /** The calls a loop makes. */
  function LoopEffects(loop: Loop, hs: seq<Handler>): seq<Effect> {
    CallEffects(loop, Calls(loop, hs, 0))
  }

  /** Init succeeds unless a decisive result other than a propagation stop comes up. */
  predicate InitSucceeds(hs: seq<Handler>) {
    match Verdict(InitLoop, hs, 0)
    case None => true
    case Some(r) => r.Flagged? && r.propagationStopped
  }

  /** 557-610. */
  function InitEffects(hs: seq<Handler>, state: M.ConnState): seq<Effect> {
    LoopEffects(InitLoop, hs)
    + (if InitSucceeds(hs) then [WriteState(M.Established), TrySend(M.Ack)]
       else if Verdict(InitLoop, hs, 0) == Some(Plain) && state != M.Closed
       then [TrySend(M.ConnectionError), TryEof]
       else [TryEof])
  }

  /** What close does past its guard when shutdown is still open: 192-219. */
  function CloseEffects(hs: seq<Handler>): seq<Effect> {
    [WriteState(M.Closed), CloseShutdown] + LoopEffects(CloseLoop, hs)
    + (if Verdict(CloseLoop, hs, 0) == Some(Plain) then []
       else [Effect.CloseOutgoing, Effect.CloseIncoming, CloseSocket])
  }

  // ---------------------------------------------------------------------------
  // The object
  // ---------------------------------------------------------------------------

  /** A loop's effects are its calls, in registration order, of exactly the handlers that
      implement the interface and before which every answer let the loop go on. */
  lemma LoopCalls(loop: Loop, hs: seq<Handler>)
    ensures forall e :: e in LoopEffects(loop, hs) ==> e.Called? && e.loop == loop
    ensures forall i: nat :: Called(loop, i) in LoopEffects(loop, hs) <==>
              && i < |hs| && loop in hs[i].answers
              && forall j :: 0 <= j < i && loop in hs[j].answers ==> LetsPass(loop, hs[j].answers[loop])
    ensures forall a, b :: 0 <= a < b < |LoopEffects(loop, hs)| ==>
              LoopEffects(loop, hs)[a].handler < LoopEffects(loop, hs)[b].handler
  {
    var calls := Calls(loop, hs, 0);
    CallsAreReached(loop, hs);
    forall i: nat
      ensures Called(loop, i) in LoopEffects(loop, hs) <==>
                && i < |hs| && loop in hs[i].answers
                && forall j :: 0 <= j < i && loop in hs[j].answers ==> LetsPass(loop, hs[j].answers[loop])
    {
      WhoIsCalled(loop, hs, i);
      if i in calls {
        var k :| 0 <= k < |calls| && calls[k] == i;
        assert LoopEffects(loop, hs)[k] == Called(loop, i);
      }
    }
  }

  /** The close loop ends with a plain error iff a handler that is reached fails plainly. */
  lemma CloseFails(hs: seq<Handler>)
    ensures Verdict(CloseLoop, hs, 0) == Some(Plain)
            <==> exists i: nat :: Reached(CloseLoop, hs, i) && FailsPlainly(CloseLoop, hs, i)
  {
    CallsAreReached(CloseLoop, hs);
    if i: nat :| Reached(CloseLoop, hs, i) && FailsPlainly(CloseLoop, hs, i) {
      VerdictOf(CloseLoop, hs, i, 0);
    }
  }

  lemma OneMoreCall(loop: Loop, before: seq<Effect>, done: seq<nat>, i: nat)
    ensures before + CallEffects(loop, done) + [Called(loop, i)] == before + CallEffects(loop, done + [i])
  {
    assert CallEffects(loop, done + [i]) == CallEffects(loop, done) + [Called(loop, i)];
  }

  class Conn {
    var state: M.ConnState
    var handlers: seq<Handler>
    var subscriptions: map<string, Subscription>
    var shutdown: bool
    var effects: seq<Effect>

    constructor ()
      ensures state == M.Undefined && handlers == [] && subscriptions == map[] && !shutdown && effects == []
    {
      state, handlers, subscriptions, shutdown, effects := M.Undefined, [], map[], false, [];
    }

    method AddHandler(h: Handler)
      modifies this`handlers
      ensures handlers == old(handlers) + [h]
    {
      handlers := handlers + [h];
    }

    method SetState(v: M.ConnState)
      modifies this`state, this`effects
      ensures state == v && effects == old(effects) + [WriteState(v)]
    {
      state := v;
      effects := effects + [WriteState(v)];
    }

    /** A loop over the handlers that stops at the first decisive result: the
        terminate, subscription-start and subscription-stop loops, and the loops of
        ConnectionStart and ConnectionStop handlers, which nothing stops. */
    method Broadcast(loop: Loop)
      requires loop != InitLoop && loop != CloseLoop && loop != PongLoop
      modifies this`effects
      ensures effects == old(effects) + LoopEffects(loop, handlers)
    {
      var i := 0;
      ghost var done: seq<nat> := [];
      while i < |handlers|
        invariant 0 <= i <= |handlers|
        invariant effects == old(effects) + CallEffects(loop, done)
        invariant Calls(loop, handlers, 0) == done + Calls(loop, handlers, i)
      {
        if loop in handlers[i].answers {
          OneMoreCall(loop, old(effects), done, i);
          effects := effects + [Called(loop, i)];
          done := done + [i];
          var r := handlers[i].answers[loop];
          if r.Flagged? && r.propagationStopped && loop != ConnStartLoop && loop != ConnStopLoop {
            return;
          }
        }
        i := i + 1;
      }
    }

    /** The init loop of 564-596: the error it returns, or None. */
    method InitBroadcast() returns (err: Option<HandlerResult>)
      modifies this`effects
      ensures err.None? <==> InitSucceeds(handlers)
      ensures err.Some? ==> err == Verdict(InitLoop, handlers, 0)
      ensures effects == old(effects) + LoopEffects(InitLoop, handlers)
                         + (if err == Some(Plain) && state != M.Closed then [TrySend(M.ConnectionError)] else [])
    {
      var i := 0;
      ghost var done: seq<nat> := [];
      while i < |handlers|
        invariant 0 <= i <= |handlers|
        invariant effects == old(effects) + CallEffects(InitLoop, done)
        invariant Calls(InitLoop, handlers, 0) == done + Calls(InitLoop, handlers, i)
        invariant Verdict(InitLoop, handlers, 0) == Verdict(InitLoop, handlers, i)
      {
        if InitLoop in handlers[i].answers {
          effects := effects + [Called(InitLoop, i)];
          done := done + [i];
          var r := handlers[i].answers[InitLoop];
          if r.Flagged? {
            if r.propagationStopped {
              return None;
            }
            if !r.defaultPrevented {
              return Some(r);
            }
          } else if r.Plain? {
            if state != M.Closed {
              effects := effects + [TrySend(M.ConnectionError)];
            }
            return Some(r);
          }
        }
        i := i + 1;
      }
      return None;
    }

    /** connection_init. */
    method ConnectionInit()
      modifies this`effects, this`state
      ensures effects == old(effects) + InitEffects(handlers, old(state))
      ensures effects == old(effects) + LoopEffects(InitLoop, handlers)
                         + (match Verdict(InitLoop, handlers, 0)
                            case Some(Plain) =>
                              if old(state) == M.Closed then [TryEof] else [TrySend(M.ConnectionError), TryEof]
                            case Some(Flagged(_, false)) => [TryEof]
                            case _ => [WriteState(M.Established), TrySend(M.Ack)])
      ensures state == match Verdict(InitLoop, handlers, 0)
                       case Some(Plain) => old(state)
                       case Some(Flagged(_, false)) => old(state)
                       case _ => M.Established
    {
      CallsAreReached(InitLoop, handlers);
      var err := InitBroadcast();
      if err.Some? {
        assert err.value == Plain || err.value == Flagged(false, false);
        effects := effects + [TryEof];
        return;
      }
      SetState(M.Established);
      effects := effects + [TrySend(M.Ack)];
    }

    /** connection_terminate. */
    method ConnectionTerminate()
      modifies this`effects
      ensures effects == old(effects) + LoopEffects(TerminateLoop, handlers) + [TryEof]
    {
      Broadcast(TerminateLoop);
      effects := effects + [TryEof];
    }

    method GqlStart(id: string, start: M.StartBody)
      requires start.StartBody?
      modifies this`effects, this`subscriptions
      ensures var accepted := id != "" && start.query != "" && start.parsed.Some? && start.valid;
              effects == old(effects) + LoopEffects(ConnStartLoop, handlers)
                         + (if accepted then [Store(id)] + LoopEffects(SubStartLoop, handlers) else [])
      ensures var accepted := id != "" && start.query != "" && start.parsed.Some? && start.valid;
              subscriptions == if accepted
                               then old(subscriptions)[id := Subscription(id, start.query, start.parsed,
                                                                          FieldNames(start.parsed.value), true)]
                               else old(subscriptions)
    {
      Broadcast(ConnStartLoop);
      var sub := Subscription(id, start.query, None, [], true);
      var errs := ValidateSubscription(sub);
      if |errs| > 0 || start.parsed.None? || !start.valid {
        return;
      }
      var fields := SubscriptionFieldNamesFromDocument(start.parsed.value);
      sub := sub.(document := start.parsed, fields := fields);
      subscriptions := subscriptions[sub.id := sub];
      effects := effects + [Store(sub.id)];
      Broadcast(SubStartLoop);
    }

    method GqlStop(id: string)
      modifies this`effects
      ensures effects == old(effects) + LoopEffects(ConnStopLoop, handlers)
                         + (if id in subscriptions then LoopEffects(SubStopLoop, handlers) else [])
    {
      Broadcast(ConnStopLoop);
      if id !in subscriptions {
        return;
      }
      Broadcast(SubStopLoop);
    }

    /** The pong handlers of 236-245: the first error of any kind is returned. */
    method Pong() returns (err: Option<HandlerResult>)
      modifies this`effects
      ensures effects == old(effects) + LoopEffects(PongLoop, handlers)
      ensures err == Verdict(PongLoop, handlers, 0)
    {
      var i := 0;
      ghost var done: seq<nat> := [];
      while i < |handlers|
        invariant 0 <= i <= |handlers|
        invariant effects == old(effects) + CallEffects(PongLoop, done)
        invariant Calls(PongLoop, handlers, 0) == done + Calls(PongLoop, handlers, i)
        invariant Verdict(PongLoop, handlers, 0) == Verdict(PongLoop, handlers, i)
      {
        if PongLoop in handlers[i].answers {
          effects := effects + [Called(PongLoop, i)];
          done := done + [i];
          if !handlers[i].answers[PongLoop].Nil? {
            return Some(handlers[i].answers[PongLoop]);
          }
        }
        i := i + 1;
      }
      return None;
    }

    /** The close handlers of 197-211; does one of them fail plainly? */
    method CloseBroadcast() returns (failed: bool)
      modifies this`effects
      ensures effects == old(effects) + LoopEffects(CloseLoop, handlers)
      ensures failed <==> Verdict(CloseLoop, handlers, 0) == Some(Plain)
    {
      var i := 0;
      ghost var done: seq<nat> := [];
      while i < |handlers|
        invariant 0 <= i <= |handlers|
        invariant effects == old(effects) + CallEffects(CloseLoop, done)
        invariant Calls(CloseLoop, handlers, 0) == done + Calls(CloseLoop, handlers, i)
        invariant Verdict(CloseLoop, handlers, 0) == Verdict(CloseLoop, handlers, i)
      {
        if CloseLoop in handlers[i].answers {
          effects := effects + [Called(CloseLoop, i)];
          done := done + [i];
          var res := handlers[i].answers[CloseLoop];
          if res.Flagged? {
            if res.propagationStopped {
              return false;
            }
          } else if res.Plain? {
            return true;
          }
        }
        i := i + 1;
      }
      return false;
    }

    /** close: ErrConnectionClosed when Closed, a panic at the closed shutdown channel,
        a close handler's plain error with both queues left open, or the teardown. */
    method Close(socketOk: bool) returns (r: M.CloseResult)
      modifies this`state, this`shutdown, this`effects
      ensures state == M.Closed && (old(state) != M.Closed ==> shutdown)
      ensures old(state) == M.Closed ==> r == M.Refused && effects == old(effects) && shutdown == old(shutdown)
      ensures old(state) != M.Closed && old(shutdown) ==>
                r == M.Panicked && effects == old(effects) + [WriteState(M.Closed)]
      ensures old(state) != M.Closed && !old(shutdown) ==> effects == old(effects) + CloseEffects(handlers)
      ensures old(state) != M.Closed && !old(shutdown) ==>
                var failed := exists i: nat :: Reached(CloseLoop, handlers, i) && FailsPlainly(CloseLoop, handlers, i);
                && effects == old(effects) + [WriteState(M.Closed), CloseShutdown] + LoopEffects(CloseLoop, handlers)
                              + (if failed then [] else [Effect.CloseOutgoing, Effect.CloseIncoming, CloseSocket])
                && r == if failed then M.HandlerFailed else M.TornDown(socketOk)
    {
      CloseFails(handlers);
      if state == M.Closed {
        return M.Refused;
      }
      SetState(M.Closed);
      if shutdown {
        return M.Panicked;
      }
      shutdown := true;
      effects := effects + [CloseShutdown];
      var failed := CloseBroadcast();
      if failed {
        return M.HandlerFailed;
      }
      effects := effects + [Effect.CloseOutgoing, Effect.CloseIncoming, CloseSocket];
      return M.TornDown(socketOk);
    }
  }

  // ---------------------------------------------------------------------------
  // What the effects amount to
  // ---------------------------------------------------------------------------

  /** Init succeeds iff no result is decisive, or the first decisive one is a
      propagation stop. */
  lemma InitSucceedsIff(hs: seq<Handler>)
    ensures InitSucceeds(hs) <==>
              || (forall i :: 0 <= i < |hs| ==> !IsDecisive(InitLoop, hs, i))
              || (exists i: nat :: Reached(InitLoop, hs, i) && StopsPropagation(InitLoop, hs, i))
  {
    CallsAreReached(InitLoop, hs);
    if i: nat :| Reached(InitLoop, hs, i) && StopsPropagation(InitLoop, hs, i) {
      VerdictOf(InitLoop, hs, i, 0);
    }
  }

  /** A plain error of handler i is answered by one connection_error, unless the
      connection is Closed, then the EOF; a HandlerError with neither flag by the EOF
      alone; and a propagation stop by the ack. */
  lemma InitFailure(hs: seq<Handler>, state: M.ConnState, i: nat)
    requires Reached(InitLoop, hs, i)
    ensures FailsPlainly(InitLoop, hs, i) ==>
              InitEffects(hs, state) == LoopEffects(InitLoop, hs)
                                        + (if state == M.Closed then [] else [TrySend(M.ConnectionError)]) + [TryEof]
    ensures hs[i].answers[InitLoop] == Flagged(false, false) ==>
              InitEffects(hs, state) == LoopEffects(InitLoop, hs) + [TryEof]
    ensures StopsPropagation(InitLoop, hs, i) ==>
              InitEffects(hs, state) == LoopEffects(InitLoop, hs) + [WriteState(M.Established), TrySend(M.Ack)]
  {
    if IsDecisive(InitLoop, hs, i) { VerdictOf(InitLoop, hs, i, 0); }
  }

  /** close leaves both queues open exactly when a close handler that is reached fails
      plainly. */
  lemma CloseLeavesQueuesOpen(hs: seq<Handler>)
    ensures Effect.CloseOutgoing !in CloseEffects(hs) && Effect.CloseIncoming !in CloseEffects(hs)
            <==> exists i: nat :: Reached(CloseLoop, hs, i) && FailsPlainly(CloseLoop, hs, i)
    ensures Effect.CloseOutgoing in CloseEffects(hs) <==> Effect.CloseIncoming in CloseEffects(hs)
  {
    CallsAreReached(CloseLoop, hs);
    if i: nat :| Reached(CloseLoop, hs, i) && FailsPlainly(CloseLoop, hs, i) {
      VerdictOf(CloseLoop, hs, i, 0);
    }
    var n := |CloseEffects(hs)|;
    if Verdict(CloseLoop, hs, 0) != Some(Plain) {
      assert CloseEffects(hs)[n - 3] == Effect.CloseOutgoing && CloseEffects(hs)[n - 2] == Effect.CloseIncoming;
    }
  }
}

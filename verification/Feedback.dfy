/** The feedback from a failing reader through Conn.Close and the Redis handler's
    HandleWebsocketClose back to reader.close: exactly when it closes the reader, and
    what follows for the failure counter and for the end of readPump. */
module Feedback {
  import opened Options
  import opened Machine
  import opened Runs
  import opened Dispatch
  import opened Control
  import opened World
  import opened Frames
  import opened Lifecycle
  import opened ReaderSteps
  import RP = RedisProtocol

  lemma ReaderMoves(s: State, a: Step, s': State, i: nat)
    requires Consistent(s) && Do(s, a) == Some(s')
    ensures i < |s.readers| ==> i < |s'.readers| && s'.readers[i] == ReaderAfter(s, a, s', i)
    ensures |s.readers| <= i < |s'.readers| ==> exists sub, topics :: s'.readers[i] == NewReader(sub, topics)
  {
    if i < |s.readers| {
      ReaderStepped(s, a, s', i);
    } else if i < |s'.readers| {
      NewReaders(s, a, s');
    }
  }

  // ---------------------------------------------------------------------------
  // The call of Conn.Close by a reader
  // ---------------------------------------------------------------------------

  /** With this step Conn.Close returns to reader i: at 697, at 700, from the guard or
      the closed shutdown channel, or from inside close. */
  predicate CloseReturns(s: State, i: nat, a: Step, s': State) {
    || (a == RedisReaderStep(i, SelfCheckStep) && s.state == Closed)
    || a == RedisReaderStep(i, SelfWriteStep(false))
    || (a == RedisReaderStep(i, SelfClose) && (s.state == Closed || s.shutdown))
    || Leaves(s, i, a, s')
  }

  lemma AfterMissed(s: State, a: Step, s': State, i: nat)
    requires i < |s.readers|
    ensures ReaderAfter(s, a, s', i).missed <==>
              s.readers[i].missed || (CloseReturns(s, i, a, s') && s.readers[i].state != RP.Closed)
  {
    if a.RedisReaderStep? && a.i == i {
      match a.d
      case SubscribeStep(ok) =>
      case ReceiveStep(e) =>
      case SelfCheckStep =>
      case SelfWriteStep(ok) =>
      case SelfClose =>
      case _ =>
    }
  }

  /** A reader misses its close exactly when Conn.Close returns to it and it is not Closed. */
  lemma MissedExactlyIf(s: State, a: Step, s': State, i: nat)
    requires Reachable(s) && Do(s, a) == Some(s') && i < |s.readers|
    ensures i < |s'.readers|
    ensures s'.readers[i].missed <==>
              s.readers[i].missed || (CloseReturns(s, i, a, s') && s.readers[i].state != RP.Closed)
  {
    Invariants(s);
    ReaderMoves(s, a, s', i);
    AfterMissed(s, a, s', i);
  }

  // ---------------------------------------------------------------------------
  // When close gets to the Redis handler
  // ---------------------------------------------------------------------------

  /** This answer of a close handler lets the loop go on. */
  predicate Passes(a: Answer) {
    a.Returns? && !Decisive(CloseLoop, a.result)
  }

  /** From handler k on, do the close handlers before the first Redis handler let the
      loop get to it? */
  predicate RedisReached(kinds: seq<HandlerKind>, answers: seq<Answer>, k: nat)
    requires |answers| == |kinds| && k <= |kinds|
    decreases |kinds| - k
  {
    k < |kinds| && (kinds[k].Redis? || (Passes(answers[k]) && RedisReached(kinds, answers, k + 1)))
  }

  /** Some Redis handler is registered, and no handler before it stops the
      propagation, fails plainly or panics. */
  lemma {:induction false} RedisReachedIff(kinds: seq<HandlerKind>, answers: seq<Answer>, k: nat)
    requires |answers| == |kinds| && k <= |kinds|
    ensures RedisReached(kinds, answers, k) <==>
              exists r :: k <= r < |kinds| && kinds[r].Redis?
                          && forall j :: k <= j < r ==> kinds[j].Redis? || Passes(answers[j])
    decreases |kinds| - k
  {
    if k < |kinds| && kinds[k].User? {
      RedisReachedIff(kinds, answers, k + 1);
      if RedisReached(kinds, answers, k) {
        var r :| k + 1 <= r < |kinds| && kinds[r].Redis?
                 && forall j :: k + 1 <= j < r ==> kinds[j].Redis? || Passes(answers[j]);
      }
    }
  }

  predicate Suffix(todo: seq<HandlerKind>, kinds: seq<HandlerKind>) {
    |todo| <= |kinds| && todo == kinds[|kinds| - |todo|..]
  }

  /** The user handler called by this step of close answers what `answers` says. */
  predicate Answering(kinds: seq<HandlerKind>, answers: seq<Answer>, s: State, a: Step) {
    a.InsideClose? && a.c.CallCloser? && s.lock.WriteLocked? && s.lock.phase.Broadcast?
    && 0 < |s.lock.phase.todo| <= |kinds| == |answers| ==>
      a.c.a == answers[|kinds| - |s.lock.phase.todo|]
  }

  /** How the handlers still to be called decide whether a Range happens. */
  ghost predicate Foretold(kinds: seq<HandlerKind>, answers: seq<Answer>, s: State)
    requires |answers| == |kinds|
  {
    if !s.lock.WriteLocked? then
      RedisReached(kinds, answers, 0) <==> s.hist.ranged.Some?
    else match s.lock.phase
      case Broadcast(todo) =>
        Suffix(todo, kinds)
        && (RedisReached(kinds, answers, 0) <==>
              s.hist.ranged.Some? || RedisReached(kinds, answers, |kinds| - |todo|))
      case Ranging(todo, _, _, _, _) => Suffix(todo, kinds) && RedisReached(kinds, answers, 0)
      case _ => RedisReached(kinds, answers, 0) <==> s.hist.ranged.Some?
  }

  lemma CallForetold(kinds: seq<HandlerKind>, answers: seq<Answer>, s: State, todo: seq<HandlerKind>,
                     answer: Answer, s': State)
    requires |answers| == |kinds| && s.lock.WriteLocked? && s.lock.phase == Broadcast(todo)
    requires Foretold(kinds, answers, s) && Answering(kinds, answers, s, InsideClose(CallCloser(answer)))
    requires DoBroadcast(s, todo, CallCloser(answer)) == Some(s')
    ensures Foretold(kinds, answers, s')
  {
    if answer.Panics? { UnlockReaders(s, Panicked); }
    else if answer.result.Plain? { UnlockReaders(s, HandlerFailed); }
    else if Decisive(CloseLoop, answer.result) {}
    else {}
  }

  lemma BroadcastForetold(kinds: seq<HandlerKind>, answers: seq<Answer>, s: State, todo: seq<HandlerKind>,
                          x: CloseStep, s': State)
    requires |answers| == |kinds| && s.lock.WriteLocked? && s.lock.phase == Broadcast(todo)
    requires Foretold(kinds, answers, s) && Answering(kinds, answers, s, InsideClose(x))
    requires DoBroadcast(s, todo, x) == Some(s')
    ensures Foretold(kinds, answers, s')
  {
    match x
    case CallCloser(answer) => CallForetold(kinds, answers, s, todo, answer, s');
    case LastCloser =>
    case RangeBegin =>
    case _ =>
  }

  lemma RangeForetold(kinds: seq<HandlerKind>, answers: seq<Answer>, s: State, x: CloseStep, s': State)
    requires |answers| == |kinds| && s.lock.WriteLocked? && s.lock.phase.Ranging?
    requires Foretold(kinds, answers, s) && DoRange(s, s.lock.phase, x) == Some(s')
    ensures Foretold(kinds, answers, s')
  {
    match x
    case RangePick(key) =>
    case RangeCheck =>
    case RangeSet =>
    case RangeEnd =>
    case _ =>
  }

  lemma QueueStep(s: State, x: CloseStep, s': State)
    requires s.lock.WriteLocked? && !s.lock.phase.Broadcast? && !s.lock.phase.Ranging? && DoClose(s, x) == Some(s')
    ensures s'.hist == s.hist
    ensures s'.lock.WriteLocked? ==> !s'.lock.phase.Broadcast? && !s'.lock.phase.Ranging?
  {
    match s.lock.phase
    case CloseOut => if s.outq.closed { UnlockReaders(s, Panicked); }
    case CloseIn => if s.inq.closed { UnlockReaders(s, Panicked); }
    case CloseSocket => UnlockReaders(s, TornDown(x.ok));
    case _ =>
  }

  lemma CloseForetold(kinds: seq<HandlerKind>, answers: seq<Answer>, s: State, x: CloseStep, s': State)
    requires |answers| == |kinds| && Foretold(kinds, answers, s)
    requires Answering(kinds, answers, s, InsideClose(x)) && DoClose(s, x) == Some(s')
    ensures Foretold(kinds, answers, s')
  {
    match s.lock.phase
    case Broadcast(todo) => BroadcastForetold(kinds, answers, s, todo, x, s');
    case Ranging(_, _, _, _, _) => RangeForetold(kinds, answers, s, x, s');
    case _ => QueueStep(s, x, s');
  }

  /** In a run this call of close is at work up to its last step, and its user handlers
      answer what `answers` says. */
  ghost predicate OneClose(s: State, steps: seq<Step>, kinds: seq<HandlerKind>, answers: seq<Answer>) {
    forall k :: 0 <= k < |steps| && Run(s, steps[..k]).Some? ==>
                  && Run(s, steps[..k]).value.lock.WriteLocked?
                  && Answering(kinds, answers, Run(s, steps[..k]).value, steps[k])
  }

  lemma OneCloseInit(s: State, steps: seq<Step>, kinds: seq<HandlerKind>, answers: seq<Answer>, m: State)
    requires OneClose(s, steps, kinds, answers) && steps != [] && Run(s, steps[..|steps| - 1]) == Some(m)
    ensures OneClose(s, steps[..|steps| - 1], kinds, answers)
    ensures m.lock.WriteLocked? && Answering(kinds, answers, m, steps[|steps| - 1])
  {
    var n := |steps| - 1;
    assert forall k :: 0 <= k < n ==> steps[..n][..k] == steps[..k];
  }

  lemma {:induction false} CloseRuns(s: State, steps: seq<Step>, t: State,
                                     kinds: seq<HandlerKind>, answers: seq<Answer>)
    requires Invariant(s) && |answers| == |kinds| && s.lock.WriteLocked? && Foretold(kinds, answers, s)
    requires Run(s, steps) == Some(t) && OneClose(s, steps, kinds, answers)
    ensures Invariant(t) && Foretold(kinds, answers, t)
    ensures t.lock.WriteLocked? ==> t.lock.owner == s.lock.owner
  {
    if steps != [] {
      var n := |steps| - 1;
      var m := Run(s, steps[..n]).value;
      OneCloseInit(s, steps, kinds, answers, m);
      CloseRuns(s, steps[..n], m, kinds, answers);
      CloseGoesOn(m, steps[n], t, kinds, answers);
    }
  }

  lemma BroadcastOwner(s: State, todo: seq<HandlerKind>, x: CloseStep, s': State)
    requires s.lock.WriteLocked? && DoBroadcast(s, todo, x) == Some(s') && s'.lock.WriteLocked?
    ensures s'.lock.owner == s.lock.owner
  {
    match x
    case CallCloser(answer) =>
      if answer.Panics? { UnlockReaders(s, Panicked); }
      else if answer.result.Plain? { UnlockReaders(s, HandlerFailed); }
      else {}
    case LastCloser =>
    case RangeBegin =>
    case _ =>
  }

  lemma RangeOwner(s: State, x: CloseStep, s': State)
    requires s.lock.WriteLocked? && s.lock.phase.Ranging? && DoRange(s, s.lock.phase, x) == Some(s')
    ensures s'.lock.WriteLocked? && s'.lock.owner == s.lock.owner
  {
    match x
    case RangePick(key) =>
    case RangeCheck =>
    case RangeSet =>
    case RangeEnd =>
    case _ =>
  }

  lemma OwnerStays(s: State, x: CloseStep, s': State)
    requires DoClose(s, x) == Some(s') && s'.lock.WriteLocked?
    ensures s.lock.WriteLocked? && s'.lock.owner == s.lock.owner
  {
    match s.lock.phase
    case Broadcast(todo) => BroadcastOwner(s, todo, x, s');
    case Ranging(_, _, _, _, _) => RangeOwner(s, x, s');
    case CloseOut => if s.outq.closed { UnlockReaders(s, Panicked); }
    case CloseIn => if s.inq.closed { UnlockReaders(s, Panicked); }
    case CloseSocket => UnlockReaders(s, TornDown(x.ok));
  }

  lemma OutsideForetold(s: State, a: Step, s': State, kinds: seq<HandlerKind>, answers: seq<Answer>)
    requires |answers| == |kinds| && s.lock.WriteLocked? && Foretold(kinds, answers, s)
    requires Forward(s, a, s') && !a.InsideClose?
    ensures Foretold(kinds, answers, s') && s'.lock == s.lock
  {}

  lemma InsideForetold(s: State, x: CloseStep, s': State, kinds: seq<HandlerKind>, answers: seq<Answer>)
    requires |answers| == |kinds| && s.lock.WriteLocked? && Foretold(kinds, answers, s)
    requires Answering(kinds, answers, s, InsideClose(x)) && DoClose(s, x) == Some(s')
    ensures Foretold(kinds, answers, s')
    ensures s'.lock.WriteLocked? ==> s'.lock.owner == s.lock.owner
  {
    CloseForetold(kinds, answers, s, x, s');
    if s'.lock.WriteLocked? { OwnerStays(s, x, s'); }
  }

  lemma CloseGoesOn(s: State, a: Step, s': State, kinds: seq<HandlerKind>, answers: seq<Answer>)
    requires Invariant(s) && |answers| == |kinds| && s.lock.WriteLocked? && Foretold(kinds, answers, s)
    requires Answering(kinds, answers, s, a) && Do(s, a) == Some(s')
    ensures Invariant(s') && Foretold(kinds, answers, s')
    ensures s'.lock.WriteLocked? ==> s'.lock.owner == s.lock.owner
  {
    StepInvariant(s, a, s');
    if a.InsideClose? {
      InsideForetold(s, a.c, s', kinds, answers);
    } else {
      OutsideForetold(s, a, s', kinds, answers);
    }
  }

  lemma EntersClose(s0: State, a: Step, s: State, answers: seq<Answer>)
    requires Reachable(s0) && PassesGuard(s0, a) && !s0.shutdown && Do(s0, a) == Some(s)
    requires |answers| == |s0.handlers|
    ensures Invariant(s) && s.lock == WriteLocked(CloserOf(a), Broadcast(s0.handlers))
    ensures s.hist.ranged.None? && Foretold(s0.handlers, answers, s)
  {
    Invariants(s0);
    StepInvariant(s0, a, s);
    if s0.state == Closed {} else {}
  }

  /** Whoever enters close, from its guard in s0 to its return in t, whatever runs in
      between: the Redis handler's Range happens iff a Redis handler is registered in s0
      and no handler before it stops the propagation, fails plainly or panics. */
  lemma RangesExactlyIf(s0: State, a: Step, s: State, steps: seq<Step>, t: State, answers: seq<Answer>)
    requires Reachable(s0) && PassesGuard(s0, a) && !s0.shutdown && Do(s0, a) == Some(s)
    requires |answers| == |s0.handlers| && OneClose(s, steps, s0.handlers, answers)
    requires Run(s, steps) == Some(t) && !t.lock.WriteLocked?
    ensures t.hist.ranged.Some? <==>
              exists r :: 0 <= r < |s0.handlers| && s0.handlers[r].Redis?
                          && forall j :: 0 <= j < r ==> s0.handlers[j].Redis? || Passes(answers[j])
  {
    EntersClose(s0, a, s, answers);
    CloseRuns(s, steps, t, s0.handlers, answers);
    RedisReachedIff(s0.handlers, answers, 0);
  }

  // ---------------------------------------------------------------------------
  // What it does for the reader that called
  // ---------------------------------------------------------------------------

  /** In a run reader.close of a stop is not executed for reader i. */
  predicate NotStopped(s: State, steps: seq<Step>, i: nat) {
    forall k :: 0 <= k < |steps| && Run(s, steps[..k]).Some? ==>
                  !(steps[k].StopStage? && ClosesReader(Run(s, steps[..k]).value, i, steps[k]))
  }

  lemma NotStoppedInit(s: State, steps: seq<Step>, i: nat, m: State)
    requires NotStopped(s, steps, i) && steps != [] && Run(s, steps[..|steps| - 1]) == Some(m)
    ensures NotStopped(s, steps[..|steps| - 1], i)
    ensures !(steps[|steps| - 1].StopStage? && ClosesReader(m, i, steps[|steps| - 1]))
  {
    var n := |steps| - 1;
    assert forall k :: 0 <= k < n ==> steps[..n][..k] == steps[..k];
  }

  lemma AfterOpen(s: State, a: Step, s': State, i: nat)
    requires i < |s.readers| && s.readers[i].state != RP.Closed && !ClosesReader(s, i, a)
    ensures ReaderAfter(s, a, s', i).state != RP.Closed
  {
    if a.RedisReaderStep? && a.i == i {
      match a.d
      case SubscribeStep(ok) =>
      case ReceiveStep(e) =>
      case _ =>
    }
  }

  lemma {:induction false} StaysOpen(s: State, steps: seq<Step>, t: State, i: nat,
                                     kinds: seq<HandlerKind>, answers: seq<Answer>)
    requires Invariant(s) && |answers| == |kinds| && s.lock.WriteLocked? && Foretold(kinds, answers, s)
    requires Run(s, steps) == Some(t) && OneClose(s, steps, kinds, answers) && !RedisReached(kinds, answers, 0)
    requires NotStopped(s, steps, i) && i < |s.readers| && s.readers[i].state != RP.Closed
    ensures i < |t.readers| && t.readers[i].state != RP.Closed
  {
    if steps != [] {
      var n := |steps| - 1;
      var m := Run(s, steps[..n]).value;
      OneCloseInit(s, steps, kinds, answers, m);
      NotStoppedInit(s, steps, i, m);
      StaysOpen(s, steps[..n], m, i, kinds, answers);
      CloseRuns(s, steps[..n], m, kinds, answers);
      ReaderMoves(m, steps[n], t, i);
      AfterOpen(m, steps[n], t, i);
    }
  }

  lemma ReachedByRange(s: State, i: nat)
    requires Invariant(s) && InsideOf(s.lock, i) && s.hist.ranged.Some?
    ensures i < |s.readers| && (s.readers[i].state == RP.Closed || Displaced(s.redis, s.readers, i))
  {
    assert Settled(s.redis, s.readers, i, s.hist.ranged.value.launching);
  }

  /** The step with which close returns to reader i leaves the state of the reader, its
      place in the map and the record of the Range as they are. */
  lemma ReturnStep(m: State, a: Step, t: State, i: nat)
    requires Invariant(m) && InsideOf(m.lock, i) && Do(m, a) == Some(t) && !t.lock.WriteLocked?
    ensures a.InsideClose? && t.redis == m.redis && t.hist.ranged == m.hist.ranged
    ensures i < |m.readers| && i < |t.readers| && t.readers[i] == GiveUp(m.readers[i])
  {
    StepInvariant(m, a, t);
    OwnReturn(m, a, t, i);
  }

  lemma OwnReturn(m: State, a: Step, t: State, i: nat)
    requires Consistent(m) && TeardownProgress(m) && InsideOf(m.lock, i) && Frame(m, a, t)
    requires Do(m, a) == Some(t) && !t.lock.WriteLocked?
    ensures a.InsideClose? && t.redis == m.redis && t.hist.ranged == m.hist.ranged
    ensures i < |m.readers| && i < |t.readers| && t.readers[i] == GiveUp(m.readers[i])
  {
    ReaderMoves(m, a, t, i);
    LeavesRange(m, a.c, t);
  }

  lemma LeavesRange(s: State, x: CloseStep, s': State)
    requires DoClose(s, x) == Some(s') && !s'.lock.WriteLocked?
    ensures s'.hist.ranged == s.hist.ranged
  {
    match s.lock.phase
    case Broadcast(todo) => BroadcastLeaves(s, todo, x, s');
    case Ranging(_, _, _, _, _) => RangeOwner(s, x, s');
    case CloseOut => UnlockReaders(s, Panicked);
    case CloseIn => UnlockReaders(s, Panicked);
    case CloseSocket => UnlockReaders(s, TornDown(x.ok));
  }

  lemma BroadcastLeaves(s: State, todo: seq<HandlerKind>, x: CloseStep, s': State)
    requires s.lock.WriteLocked? && DoBroadcast(s, todo, x) == Some(s') && !s'.lock.WriteLocked?
    ensures s'.hist == s.hist && x.CallCloser? && !Passes(x.a)
  {
    match x
    case CallCloser(answer) =>
      if answer.Panics? { UnlockReaders(s, Panicked); }
      else if answer.result.Plain? { UnlockReaders(s, HandlerFailed); }
      else {}
    case LastCloser =>
    case RangeBegin =>
    case _ =>
  }

  /** A run of one close called by reader i, from its entry in s to its return in t. */
  ghost predicate OwnCall(s0: State, s: State, steps: seq<Step>, t: State, i: nat, answers: seq<Answer>) {
    && i < |s0.readers| && s0.state != Closed && !s0.shutdown
    && Do(s0, RedisReaderStep(i, SelfClose)) == Some(s)
    && |answers| == |s0.handlers| && OneClose(s, steps, s0.handlers, answers)
    && Run(s, steps) == Some(t) && !t.lock.WriteLocked?
  }

  lemma OwnCallEnds(s0: State, s: State, steps: seq<Step>, t: State, i: nat, answers: seq<Answer>) returns (m: State)
    requires Reachable(s0) && OwnCall(s0, s, steps, t, i, answers)
    ensures Invariant(s) && s.lock.WriteLocked? && Foretold(s0.handlers, answers, s)
    ensures Invariant(m) && InsideOf(m.lock, i) && steps != [] && Do(m, steps[|steps| - 1]) == Some(t)
    ensures i < |m.readers| && i < |t.readers| && t.readers[i] == GiveUp(m.readers[i])
    ensures t.redis == m.redis && t.hist.ranged == m.hist.ranged
    ensures t.hist.ranged.Some? <==> RedisReached(s0.handlers, answers, 0)
  {
    EntersClose(s0, RedisReaderStep(i, SelfClose), s, answers);
    CloseRuns(s, steps, t, s0.handlers, answers);
    var n := |steps| - 1;
    m := Run(s, steps[..n]).value;
    OneCloseInit(s, steps, s0.handlers, answers, m);
    CloseRuns(s, steps[..n], m, s0.handlers, answers);
    ReturnStep(m, steps[n], t, i);
  }

  /** Close called by reader i on an open connection with shutdown open, from its guard
      to its return under any interleaving. If it gets to the Redis handler, the reader
      is Closed on return, or a later start with its ID displaced it. */
  lemma OwnCloseReaches(s0: State, s: State, steps: seq<Step>, t: State, i: nat, answers: seq<Answer>)
    requires Reachable(s0) && OwnCall(s0, s, steps, t, i, answers)
    requires RedisReached(s0.handlers, answers, 0)
    ensures i < |t.readers| && (t.readers[i].state == RP.Closed || Displaced(t.redis, t.readers, i))
  {
    var m := OwnCallEnds(s0, s, steps, t, i, answers);
    ReachedByRange(m, i);
  }

  /** If it does not, it has not closed the reader: a reader that was not Closed before,
      and that no stop closes meanwhile, has missed its close. */
  lemma OwnCloseMisses(s0: State, s: State, steps: seq<Step>, t: State, i: nat, answers: seq<Answer>)
    requires Reachable(s0) && OwnCall(s0, s, steps, t, i, answers)
    requires !RedisReached(s0.handlers, answers, 0)
    requires s0.readers[i].state != RP.Closed && NotStopped(s, steps, i)
    ensures i < |t.readers| && t.readers[i].state != RP.Closed && t.readers[i].missed
  {
    var m := OwnCallEnds(s0, s, steps, t, i, answers);
    StaysOpenAfterEntry(s0, s, i);
    StaysOpen(s, steps, t, i, s0.handlers, answers);
  }

  lemma StaysOpenAfterEntry(s0: State, s: State, i: nat)
    requires Reachable(s0) && i < |s0.readers| && s0.readers[i].state != RP.Closed
    requires Do(s0, RedisReaderStep(i, SelfClose)) == Some(s)
    ensures i < |s.readers| && s.readers[i].state != RP.Closed
  {
    Invariants(s0);
    ReaderMoves(s0, RedisReaderStep(i, SelfClose), s, i);
    AfterOpen(s0, RedisReaderStep(i, SelfClose), s, i);
  }

  // ---------------------------------------------------------------------------
  // The counter over whole runs
  // ---------------------------------------------------------------------------

  /** What can keep Conn.Close from reaching reader i, seen where it is decided: the
      connection is Closed already, the control write fails, shutdown is closed, no
      Redis handler is registered, or a close handler before it ends the loop. */
  predicate Hinders(s: State, i: nat, a: Step) {
    || (a == RedisReaderStep(i, SelfCheckStep) && s.state == Closed)
    || a == RedisReaderStep(i, SelfWriteStep(false))
    || (a == RedisReaderStep(i, SelfClose) && (s.state == Closed || s.shutdown || Redis !in s.handlers))
    || (a.InsideClose? && a.c.CallCloser? && !Passes(a.c.a) && InsideOf(s.lock, i) && s.hist.ranged.None?)
  }

  predicate Unhindered(s: State, steps: seq<Step>, i: nat) {
    forall k :: 0 <= k < |steps| && Run(s, steps[..k]).Some? ==> !Hinders(Run(s, steps[..k]).value, i, steps[k])
  }

  /** A close by reader i still has the Redis handler before it, or has been there. */
  ghost predicate OnItsWay(s: State, i: nat) {
    InsideOf(s.lock, i) && s.hist.ranged.None? ==>
      s.lock.phase.Ranging? || (s.lock.phase.Broadcast? && Redis in s.lock.phase.todo)
  }

  ghost predicate NotMissed(s: State, i: nat) {
    i < |s.readers| && s.readers[i].missed ==> Displaced(s.redis, s.readers, i)
  }

  lemma BroadcastOnItsWay(s: State, todo: seq<HandlerKind>, x: CloseStep, s': State, i: nat)
    requires s.lock.WriteLocked? && s.lock.phase == Broadcast(todo) && InsideOf(s.lock, i)
    requires OnItsWay(s, i) && !Hinders(s, i, InsideClose(x)) && DoBroadcast(s, todo, x) == Some(s')
    ensures OnItsWay(s', i)
    ensures !s'.lock.WriteLocked? ==> s.hist.ranged.Some?
  {
    match x
    case CallCloser(answer) =>
      if answer.Panics? { UnlockReaders(s, Panicked); }
      else if answer.result.Plain? { UnlockReaders(s, HandlerFailed); }
      else {}
    case LastCloser =>
    case RangeBegin =>
    case _ =>
  }

  lemma CloseOnItsWay(s: State, x: CloseStep, s': State, i: nat)
    requires InsideOf(s.lock, i)
    requires OnItsWay(s, i) && !Hinders(s, i, InsideClose(x)) && DoClose(s, x) == Some(s')
    ensures OnItsWay(s', i)
    ensures !s'.lock.WriteLocked? ==> s.hist.ranged.Some?
  {
    match s.lock.phase
    case Broadcast(todo) => BroadcastOnItsWay(s, todo, x, s', i);
    case Ranging(_, _, _, _, _) => RangeOwner(s, x, s');
    case CloseOut => if s.outq.closed { UnlockReaders(s, Panicked); }
    case CloseIn => if s.inq.closed { UnlockReaders(s, Panicked); }
    case CloseSocket => UnlockReaders(s, TornDown(x.ok));
  }

  lemma EntryOnItsWay(s: State, a: Step, s': State, i: nat)
    requires Frame(s, a, s') && !Hinders(s, i, a) && !s.lock.WriteLocked?
    ensures OnItsWay(s', i)
  {}

  lemma WayStep(s: State, a: Step, s': State, i: nat)
    requires Frame(s, a, s') && OnItsWay(s, i) && !Hinders(s, i, a) && Do(s, a) == Some(s')
    ensures OnItsWay(s', i)
    ensures Leaves(s, i, a, s') ==> s.hist.ranged.Some?
  {
    if !s.lock.WriteLocked? {
      EntryOnItsWay(s, a, s', i);
    } else if a.InsideClose? {
      if InsideOf(s.lock, i) { CloseOnItsWay(s, a.c, s', i); }
      else if s'.lock.WriteLocked? { OwnerStays(s, a.c, s'); }
    }
  }

  lemma StaysDisplaced(s: State, a: Step, s': State, i: nat)
    requires Invariant(s) && Do(s, a) == Some(s') && Consistent(s')
    requires i < |s.readers| && Displaced(s.redis, s.readers, i)
    ensures i < |s'.readers| && Displaced(s'.redis, s'.readers, i)
  {
    var j := s.redis[s.readers[i].sub.id];
    ReaderMoves(s, a, s', i);
    ReaderMoves(s, a, s', j);
    SameSubscription(s, a, s', i);
    SameSubscription(s, a, s', j);
  }

  lemma SameSubscription(s: State, a: Step, s': State, i: nat)
    requires i < |s.readers|
    ensures ReaderAfter(s, a, s', i).sub == s.readers[i].sub
    ensures s.readers[i].missed ==> ReaderAfter(s, a, s', i).missed
  {
    if a.RedisReaderStep? && a.i == i {
      match a.d
      case SubscribeStep(ok) =>
      case ReceiveStep(e) =>
      case _ =>
    }
  }

  lemma MissStep(s: State, a: Step, s': State, i: nat)
    requires Invariant(s) && OnItsWay(s, i) && NotMissed(s, i) && !Hinders(s, i, a) && Do(s, a) == Some(s')
    ensures Invariant(s') && OnItsWay(s', i) && NotMissed(s', i)
  {
    StepInvariant(s, a, s');
    WayStep(s, a, s', i);
    ReaderMoves(s, a, s', i);
    if i < |s.readers| && s'.readers[i].missed {
      AfterMissed(s, a, s', i);
      if Leaves(s, i, a, s') { ReachedByRange(s, i); }
      StaysDisplaced(s, a, s', i);
    }
  }

  lemma UnhinderedInit(s: State, steps: seq<Step>, i: nat, m: State)
    requires Unhindered(s, steps, i) && steps != [] && Run(s, steps[..|steps| - 1]) == Some(m)
    ensures Unhindered(s, steps[..|steps| - 1], i) && !Hinders(m, i, steps[|steps| - 1])
  {
    var n := |steps| - 1;
    assert forall k :: 0 <= k < n ==> steps[..n][..k] == steps[..k];
  }

  lemma {:induction false} MissRun(s: State, steps: seq<Step>, t: State, i: nat)
    requires Invariant(s) && i >= |s.readers| && Run(s, steps) == Some(t) && Unhindered(s, steps, i)
    ensures Invariant(t) && OnItsWay(t, i) && NotMissed(t, i)
  {
    if steps != [] {
      var n := |steps| - 1;
      var m := Run(s, steps[..n]).value;
      UnhinderedInit(s, steps, i, m);
      MissRun(s, steps[..n], m, i);
      MissStep(m, steps[n], t, i);
    }
  }

  /** In every run in which nothing hinders the Close of reader i, from before the reader
      is stored: unless a later start displaced it, its counter is at most four, and at
      four it is calling Close or Closed. */
  lemma CounterBounded(s: State, steps: seq<Step>, t: State, i: nat)
    requires Reachable(s) && i >= |s.readers| && Run(s, steps) == Some(t) && Unhindered(s, steps, i)
    requires i < |t.readers| && !Displaced(t.redis, t.readers, i)
    ensures !t.readers[i].missed
    ensures t.readers[i].errors <= RP.FATAL_FAILURES
    ensures t.readers[i].errors == RP.FATAL_FAILURES ==>
              CallingClose(t.readers[i].pc) || t.readers[i].state == RP.Closed
  {
    Invariants(s);
    MissRun(s, steps, t, i);
    assert ReaderOk(t.readers[i]);
  }

  // ---------------------------------------------------------------------------
  // The end of readPump
  // ---------------------------------------------------------------------------

  function Rank(pc: ReaderPc): nat {
    match pc
    case SelfCheck => 9
    case SelfWrite => 8
    case SelfCall => 7
    case SelfIn => 6
    case Launched => 5
    case Top => 4
    case Dial => 3
    case Subscribe => 2
    case _ => 0
  }

  /** Four minus the counter, then the way still to go in this turn. */
  function Measure(r: Reader): int {
    10 * (RP.FATAL_FAILURES - r.errors) + Rank(r.pc)
  }

  /** Steps left to reader i; before it is stored, those of a new reader. */
  function Budget(s: State, i: nat): int {
    if i < |s.readers| then Measure(s.readers[i]) else 45
  }

  /** As far as reader i is concerned, dials succeed and Subscribe fails. */
  predicate Fails(a: Step, i: nat) {
    a != RedisReaderStep(i, DialStep(false)) && a != RedisReaderStep(i, SubscribeStep(true))
  }

  predicate Own(a: Step, i: nat) {
    a.RedisReaderStep? && a.i == i
  }

  function OwnSteps(steps: seq<Step>, i: nat): nat {
    if steps == [] then 0
    else OwnSteps(steps[..|steps| - 1], i) + One(Own(steps[|steps| - 1], i))
  }

  lemma MeasureDrops(r: Reader, x: ReaderStep, connClosed: bool)
    requires ReaderAt(r, x) && ReaderOk(r) && !Listening(r.pc) && !x.SelfClose?
    requires x != DialStep(false) && x != SubscribeStep(true) && !NextReader(r, x, connClosed).missed
    ensures Measure(NextReader(r, x, connClosed)) < Measure(r) && !Listening(NextReader(r, x, connClosed).pc)
    ensures |NextReader(r, x, connClosed).attempts| - |r.attempts| == NextReader(r, x, connClosed).errors - r.errors
  {
    match x
    case SetRunning =>
    case TopCheck =>
    case DialStep(ok) =>
    case SubscribeStep(ok) =>
    case SelfCheckStep => if connClosed {} else {}
    case SelfWriteStep(ok) => if ok {} else {}
    case _ =>
  }

  /** Reader i calls close, or returns from it, or others act on it. */
  lemma ElseMeasure(s: State, a: Step, s': State, i: nat)
    requires i < |s.readers| && TeardownProgress(s) && !Listening(s.readers[i].pc)
    requires Own(a, i) ==> a.d.SelfClose? && s.readers[i].pc.SelfCall?
    ensures Measure(ReaderAfter(s, a, s', i)) + One(Own(a, i)) <= Measure(s.readers[i])
    ensures !Listening(ReaderAfter(s, a, s', i).pc)
    ensures ReaderAfter(s, a, s', i).attempts == s.readers[i].attempts
    ensures ReaderAfter(s, a, s', i).errors == s.readers[i].errors
  {}

  lemma AfterMeasure(s: State, a: Step, s': State, i: nat)
    requires i < |s.readers| && Do(s, a) == Some(s') && ReaderOk(s.readers[i]) && TeardownProgress(s)
    requires Fails(a, i) && !Listening(s.readers[i].pc) && !ReaderAfter(s, a, s', i).missed
    ensures Measure(ReaderAfter(s, a, s', i)) + One(Own(a, i)) <= Measure(s.readers[i])
    ensures !Listening(ReaderAfter(s, a, s', i).pc)
    ensures |ReaderAfter(s, a, s', i).attempts| - |s.readers[i].attempts|
            == ReaderAfter(s, a, s', i).errors - s.readers[i].errors
  {
    if Own(a, i) { OwnAt(s, i, a.d); }
    if Own(a, i) && !a.d.SelfClose? {
      MeasureDrops(s.readers[i], a.d, s.state == Closed);
    } else {
      ElseMeasure(s, a, s', i);
    }
  }

  lemma OwnAt(s: State, i: nat, x: ReaderStep)
    requires i < |s.readers| && Do(s, RedisReaderStep(i, x)).Some?
    ensures ReaderAt(s.readers[i], x)
  {}

  ghost predicate Quiet(s: State, i: nat) {
    i < |s.readers| ==> !Listening(s.readers[i].pc)
  }

  function ErrorsOf(s: State, i: nat): int {
    if i < |s.readers| then s.readers[i].errors else 0
  }

  function AttemptsOf(s: State, i: nat): int {
    if i < |s.readers| then |s.readers[i].attempts| else 0
  }

  /** From s to t reader i takes k steps, all paid for. */
  ghost predicate Spends(s: State, k: nat, t: State, i: nat) {
    && Quiet(t, i) && k + Budget(t, i) <= Budget(s, i)
    && AttemptsOf(t, i) - AttemptsOf(s, i) == ErrorsOf(t, i) - ErrorsOf(s, i)
  }

  ghost predicate Unmissed(s: State, i: nat) {
    i < |s.readers| ==> !s.readers[i].missed
  }

  lemma BudgetStep(s: State, a: Step, s': State, i: nat)
    requires Consistent(s) && TeardownProgress(s) && Do(s, a) == Some(s') && Quiet(s, i) && Fails(a, i)
    requires Unmissed(s', i)
    ensures Spends(s, One(Own(a, i)), s', i)
  {
    ReaderMoves(s, a, s', i);
    if i < |s.readers| { AfterMeasure(s, a, s', i); }
  }

  lemma UnmissedBefore(s: State, a: Step, s': State, i: nat)
    requires Consistent(s) && Do(s, a) == Some(s') && Unmissed(s', i)
    ensures Unmissed(s, i)
  {
    ReaderMoves(s, a, s', i);
    if i < |s.readers| { SameSubscription(s, a, s', i); }
  }

  lemma {:induction false} BudgetRun(s: State, steps: seq<Step>, t: State, i: nat)
    requires Invariant(s) && Run(s, steps) == Some(t) && Quiet(s, i) && Unmissed(t, i)
    requires forall k :: 0 <= k < |steps| ==> Fails(steps[k], i)
    ensures Invariant(t) && Spends(s, OwnSteps(steps, i), t, i) && Unmissed(s, i)
  {
    if steps != [] {
      var n := |steps| - 1;
      var init, m := steps[..n], Run(s, steps[..n]).value;
      RunInvariant(s, init, m);
      UnmissedBefore(m, steps[n], t, i);
      BudgetRun(s, init, m, i);
      BudgetStep(m, steps[n], t, i);
      StepInvariant(m, steps[n], t);
    }
  }

  lemma MeasureBound(r: Reader)
    requires ReaderOk(r) && !r.missed
    ensures r.errors <= RP.FATAL_FAILURES && 0 <= Measure(r) <= 10 * (RP.FATAL_FAILURES - r.errors) + 9
  {}

  /** What is left to a reader that its Close does not miss, when its dials succeed and
      its Subscribes fail. */
  lemma StepsLeft(s: State, steps: seq<Step>, t: State, i: nat)
    requires Reachable(s) && Run(s, steps) == Some(t) && Quiet(s, i)
    requires forall k :: 0 <= k < |steps| ==> Fails(steps[k], i)
    requires i < |t.readers| && !t.readers[i].missed
    ensures 0 <= Measure(t.readers[i]) <= Budget(s, i) - OwnSteps(steps, i)
    ensures OwnSteps(steps, i) <= 10 * (RP.FATAL_FAILURES - ErrorsOf(s, i)) + 9
    ensures |t.readers[i].attempts| - AttemptsOf(s, i) == t.readers[i].errors - ErrorsOf(s, i)
    ensures t.readers[i].errors <= RP.FATAL_FAILURES
    ensures t.readers[i].errors == RP.FATAL_FAILURES && !CallingClose(t.readers[i].pc) ==>
              t.readers[i].state == RP.Closed && (t.readers[i].pc.Top? || t.readers[i].pc.ReaderDone?)
  {
    Invariants(s);
    BudgetRun(s, steps, t, i);
    MeasureBound(t.readers[i]);
    if i < |s.readers| { MeasureBound(s.readers[i]); }
  }

  /** readPump ends. In a run from before reader i is stored in which nothing hinders its
      Close and no later start displaces it, take any state s in which it is not listening
      to Redis. While from s on its dials succeed and its Subscribes fail, it makes at most
      four minus its counter further attempts and takes no more steps than its measure
      allows; when the counter is four and Close has returned, it is Closed with at most
      the check of line 64 ahead. */
  lemma ReadPumpTerminates(s0: State, before: seq<Step>, s: State, steps: seq<Step>, t: State, i: nat)
    requires Reachable(s0) && i >= |s0.readers| && Run(s0, before) == Some(s) && Run(s, steps) == Some(t)
    requires Unhindered(s0, before + steps, i)
    requires i < |t.readers| && !Displaced(t.redis, t.readers, i)
    requires Quiet(s, i) && forall k :: 0 <= k < |steps| ==> Fails(steps[k], i)
    ensures 0 <= Measure(t.readers[i]) <= Budget(s, i) - OwnSteps(steps, i)
    ensures OwnSteps(steps, i) <= 10 * (RP.FATAL_FAILURES - ErrorsOf(s, i)) + 9
    ensures |t.readers[i].attempts| - AttemptsOf(s, i) == t.readers[i].errors - ErrorsOf(s, i)
    ensures t.readers[i].errors <= RP.FATAL_FAILURES
    ensures t.readers[i].errors == RP.FATAL_FAILURES && !CallingClose(t.readers[i].pc) ==>
              t.readers[i].state == RP.Closed && (t.readers[i].pc.Top? || t.readers[i].pc.ReaderDone?)
  {
    RunAppend(s0, before, steps);
    CounterBounded(s0, before + steps, t, i);
    ReachableRun(s0, before, s);
    StepsLeft(s, steps, t, i);
  }

  /** A Closed reader at the check of line 64 stays there, Closed, until its own next
      step, with which it is done; and a reader that is done takes no step. */
  lemma ClosedReaderEnds(s: State, a: Step, s': State, i: nat)
    requires Reachable(s) && Do(s, a) == Some(s') && i < |s.readers|
    requires (s.readers[i].state == RP.Closed && s.readers[i].pc.Top?) || s.readers[i].pc.ReaderDone?
    ensures i < |s'.readers|
    ensures s.readers[i].pc.ReaderDone? ==> !Own(a, i) && s'.readers[i].pc.ReaderDone?
    ensures s.readers[i].pc.Top? ==>
              s'.readers[i].state == RP.Closed && s'.readers[i].pc == if Own(a, i) then ReaderDone else Top
  {
    Invariants(s);
    EndingReader(s, a, s', i);
  }

  lemma EndingReader(s: State, a: Step, s': State, i: nat)
    requires Consistent(s) && TeardownProgress(s) && Do(s, a) == Some(s') && i < |s.readers|
    requires (s.readers[i].state == RP.Closed && s.readers[i].pc.Top?) || s.readers[i].pc.ReaderDone?
    ensures i < |s'.readers|
    ensures s.readers[i].pc.ReaderDone? ==> !Own(a, i) && s'.readers[i].pc.ReaderDone?
    ensures s.readers[i].pc.Top? ==>
              s'.readers[i].state == RP.Closed && s'.readers[i].pc == if Own(a, i) then ReaderDone else Top
  {
    ReaderMoves(s, a, s', i);
    if Own(a, i) { OwnAt(s, i, a.d); } else { OthersLeaveEnding(s, a, s', i); }
  }

  lemma OthersLeaveEnding(s: State, a: Step, s': State, i: nat)
    requires TeardownProgress(s) && i < |s.readers| && !Own(a, i)
    requires s.readers[i].pc.Top? || s.readers[i].pc.ReaderDone?
    ensures ReaderAfter(s, a, s', i) == s.readers[i] || ReaderAfter(s, a, s', i) == ClosedReader(s.readers[i])
  {}
}

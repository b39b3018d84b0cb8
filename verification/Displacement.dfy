/** Readers whose place in the Redis handler's map a later start with the same ID has
    taken: nobody closes them, and how that completes what a reader's own Close does. */
module Displacement {
  import opened Options
  import opened Machine
  import opened Runs
  import opened Dispatch
  import opened World
  import opened Frames
  import opened Lifecycle
  import opened ReaderRuns
  import opened Stops
  import opened ReaderSteps
  import opened Feedback
  import RP = RedisProtocol

  // ---------------------------------------------------------------------------
  // A displaced reader is never closed
  // ---------------------------------------------------------------------------

  /** The Range under way is about to close reader i. */
  predicate Picked(s: State, i: nat) {
    InRange(s) && !s.lock.phase.at.Pick? && s.lock.phase.at.j == i
  }

  /** Displaced and not Closed, and no Range has picked it. */
  ghost predicate OutOfReach(s: State, i: nat) {
    && i < |s.readers| && s.readers[i].state != RP.Closed && Displaced(s.redis, s.readers, i)
    && !Picked(s, i)
  }

  lemma PickedBy(s: State, x: CloseStep, s': State, i: nat)
    requires DoClose(s, x) == Some(s') && Picked(s', i) && !Picked(s, i)
    ensures s.redis == s'.redis && exists key :: key in s.redis && s.redis[key] == i
  {
    match s.lock.phase
    case Broadcast(todo) =>
      match x {
        case CallCloser(answer) =>
          if answer.Panics? { UnlockReaders(s, Panicked); }
          else if answer.result.Plain? { UnlockReaders(s, HandlerFailed); }
          else {}
        case LastCloser =>
        case RangeBegin =>
        case _ =>
      }
    case Ranging(_, _, _, _, _) => RangePicks(s, x, s', i);
    case _ => QueueStep(s, x, s');
  }

  lemma RangePicks(s: State, x: CloseStep, s': State, i: nat)
    requires s.lock.WriteLocked? && s.lock.phase.Ranging? && DoRange(s, s.lock.phase, x) == Some(s')
    requires Picked(s', i) && !Picked(s, i)
    ensures s.redis == s'.redis && exists key :: key in s.redis && s.redis[key] == i
  {
    match x
    case RangePick(key) => assert s.redis[key] == i;
    case RangeCheck =>
    case RangeSet =>
    case RangeEnd =>
    case _ =>
  }

  /** What the map holds is not displaced. */
  lemma MappedNotDisplaced(s: State, i: nat)
    requires Consistent(s) && i < |s.readers| && Displaced(s.redis, s.readers, i)
    ensures forall key :: key in s.redis ==> s.redis[key] != i
  {}

  lemma NotClosedBy(s: State, i: nat, a: Step)
    requires Consistent(s) && StopTarget(s) && OutOfReach(s, i)
    ensures !ClosesReader(s, i, a)
  {
    MappedNotDisplaced(s, i);
  }

  lemma OutsideNotPicked(s: State, a: Step, s': State, i: nat)
    requires Forward(s, a, s') && !a.InsideClose? && !Picked(s, i)
    ensures !Picked(s', i)
  {}

  lemma NotPickedNow(s: State, a: Step, s': State, i: nat)
    requires Consistent(s) && Frame(s, a, s') && OutOfReach(s, i) && Do(s, a) == Some(s')
    ensures !Picked(s', i)
  {
    MappedNotDisplaced(s, i);
    if !a.InsideClose? {
      OutsideNotPicked(s, a, s', i);
    } else if Picked(s', i) {
      PickedBy(s, a.c, s', i);
    }
  }

  lemma OutOfReachKept(s: State, a: Step, s': State, i: nat)
    requires Invariant(s) && StopTarget(s) && OutOfReach(s, i) && Do(s, a) == Some(s')
    ensures Invariant(s') && StopTarget(s') && OutOfReach(s', i)
  {
    StepInvariant(s, a, s');
    TargetKept(s, a, s');
    NotClosedBy(s, i, a);
    NotPickedNow(s, a, s', i);
    ReaderMoves(s, a, s', i);
    AfterOpen(s, a, s', i);
    StaysDisplaced(s, a, s', i);
  }

  lemma {:induction false} OutOfReachRuns(s: State, steps: seq<Step>, t: State, i: nat)
    requires Invariant(s) && StopTarget(s) && OutOfReach(s, i) && Run(s, steps) == Some(t)
    ensures Invariant(t) && StopTarget(t) && OutOfReach(t, i)
  {
    if steps != [] {
      var init := steps[..|steps| - 1];
      var m := Run(s, init).value;
      OutOfReachRuns(s, init, m, i);
      OutOfReachKept(m, steps[|steps| - 1], t, i);
    }
  }

  /** A displaced reader that is not Closed, and that no Range under way has picked, is
      never closed again: not by a stop, not by any close, its own included. */
  lemma DisplacedIsNeverClosed(s: State, steps: seq<Step>, t: State, i: nat)
    requires Reachable(s) && i < |s.readers| && Displaced(s.redis, s.readers, i) && !Picked(s, i)
    requires s.readers[i].state != RP.Closed && Run(s, steps) == Some(t)
    ensures i < |t.readers| && t.readers[i].state != RP.Closed && Displaced(t.redis, t.readers, i)
  {
    StopTargets(s);
    OutOfReachRuns(s, steps, t, i);
  }

  // ---------------------------------------------------------------------------
  // A reader that is not displaced stays so until its ID is started again
  // ---------------------------------------------------------------------------

  /** By this step the Redis handler stores another reader under the ID of reader i. */
  predicate Restarts(s: State, i: nat, a: Step) {
    && a.StartStage? && a.b.RedisStart? && RP.StartTopics(a.b.fields).Some?
    && s.proc.SubStartCalls? && i < |s.readers| && s.proc.sub.id == s.readers[i].sub.id
  }

  lemma StartMap(s: State, x: StartStep, s': State, i: nat)
    requires DoStart(s, x) == Some(s') && i < |s.readers| && !Restarts(s, i, StartStage(x))
    requires StartStored(s)
    ensures s.readers[i].sub.id in s.redis <==> s.readers[i].sub.id in s'.redis
    ensures s.readers[i].sub.id in s.redis ==> s'.redis[s.readers[i].sub.id] == s.redis[s.readers[i].sub.id]
  {
    match x
    case OpErrSent =>
    case ValidateStart(calls) => if calls.Panics? || !Accepts(s.proc.id, s.proc.start) {} else {}
    case RedisStart(fields) => if RP.StartTopics(fields).None? {} else {}
    case _ => StartElsewhere(s, x, s');
  }

  lemma StaysMapped(s: State, a: Step, s': State, i: nat)
    requires Consistent(s) && Frame(s, a, s') && Do(s, a) == Some(s')
    requires i < |s.readers| && !Displaced(s.redis, s.readers, i) && !Restarts(s, i, a)
    ensures i < |s'.readers| && !Displaced(s'.redis, s'.readers, i)
  {
    ReaderMoves(s, a, s', i);
    SameSubscription(s, a, s', i);
    if a.StartStage? { StartMap(s, a.b, s', i); }
  }

  /** In a run the ID of reader i is not started again. */
  predicate NotRestarted(s: State, steps: seq<Step>, i: nat) {
    forall k :: 0 <= k < |steps| && Run(s, steps[..k]).Some? ==> !Restarts(Run(s, steps[..k]).value, i, steps[k])
  }

  lemma NotRestartedInit(s: State, steps: seq<Step>, i: nat, m: State)
    requires NotRestarted(s, steps, i) && steps != [] && Run(s, steps[..|steps| - 1]) == Some(m)
    ensures NotRestarted(s, steps[..|steps| - 1], i) && !Restarts(m, i, steps[|steps| - 1])
  {
    var n := |steps| - 1;
    assert forall k :: 0 <= k < n ==> steps[..n][..k] == steps[..k];
  }

  lemma {:induction false} StaysMappedRun(s: State, steps: seq<Step>, t: State, i: nat)
    requires Invariant(s) && Run(s, steps) == Some(t) && NotRestarted(s, steps, i)
    requires i < |s.readers| && !Displaced(s.redis, s.readers, i)
    ensures Invariant(t) && i < |t.readers| && !Displaced(t.redis, t.readers, i)
  {
    if steps != [] {
      var n := |steps| - 1;
      var m := Run(s, steps[..n]).value;
      NotRestartedInit(s, steps, i, m);
      StaysMappedRun(s, steps[..n], m, i);
      StepInvariant(m, steps[n], t);
      StaysMapped(m, steps[n], t, i);
    }
  }

  // ---------------------------------------------------------------------------
  // Exactly when its own Close closes a reader
  // ---------------------------------------------------------------------------

  /** Entering close leaves the maps and the reader's state as they are. */
  lemma EntryKeepsPlace(s0: State, s: State, i: nat)
    requires Reachable(s0) && i < |s0.readers| && Do(s0, RedisReaderStep(i, SelfClose)) == Some(s)
    ensures i < |s.readers| && s.readers[i].sub == s0.readers[i].sub && s.redis == s0.redis
    ensures s0.readers[i].state != RP.Closed ==> s.readers[i].state != RP.Closed
  {
    var a := RedisReaderStep(i, SelfClose);
    Invariants(s0);
    StepInvariant(s0, a, s);
    ReaderMoves(s0, a, s, i);
    SameSubscription(s0, a, s, i);
  }

  /** A reader displaced before it calls close is not closed by it. */
  lemma OwnCloseOfDisplaced(s0: State, s: State, steps: seq<Step>, t: State, i: nat, answers: seq<Answer>)
    requires Reachable(s0) && OwnCall(s0, s, steps, t, i, answers)
    requires s0.readers[i].state != RP.Closed && Displaced(s0.redis, s0.readers, i)
    ensures i < |t.readers| && t.readers[i].state != RP.Closed && t.readers[i].missed
  {
    EntersClose(s0, RedisReaderStep(i, SelfClose), s, answers);
    EntryKeepsPlace(s0, s, i);
    TargetOnEntry(s0, s, i);
    OutOfReachRuns(s, steps, t, i);
    var m := OwnCallEnds(s0, s, steps, t, i, answers);
  }

  lemma TargetOnEntry(s0: State, s: State, i: nat)
    requires Reachable(s0) && Do(s0, RedisReaderStep(i, SelfClose)) == Some(s)
    ensures StopTarget(s)
  {
    StopTargets(s0);
    StepInvariant(s0, RedisReaderStep(i, SelfClose), s);
    TargetKept(s0, RedisReaderStep(i, SelfClose), s);
  }

  lemma OwnCallKeepsPlace(s0: State, s: State, steps: seq<Step>, t: State, i: nat, answers: seq<Answer>)
    requires Reachable(s0) && OwnCall(s0, s, steps, t, i, answers) && NotRestarted(s, steps, i)
    requires !Displaced(s0.redis, s0.readers, i)
    ensures i < |t.readers| && !Displaced(t.redis, t.readers, i)
  {
    EntersClose(s0, RedisReaderStep(i, SelfClose), s, answers);
    EntryKeepsPlace(s0, s, i);
    StaysMappedRun(s, steps, t, i);
  }

  /** Close called by reader i on an open connection with shutdown open, from its guard
      to its return under any interleaving in which the reader is not stopped and its ID
      is not started again: a reader not Closed on entry is closed by it iff, on entry,
      it is not displaced, some Redis handler is registered, and no user handler before
      that stops the propagation, fails plainly or panics. */
  lemma OwnCloseExactlyIf(s0: State, s: State, steps: seq<Step>, t: State, i: nat, answers: seq<Answer>)
    requires Reachable(s0) && OwnCall(s0, s, steps, t, i, answers)
    requires s0.readers[i].state != RP.Closed && NotStopped(s, steps, i) && NotRestarted(s, steps, i)
    ensures i < |t.readers|
    ensures t.readers[i].state == RP.Closed <==>
              && !Displaced(s0.redis, s0.readers, i)
              && exists r :: 0 <= r < |s0.handlers| && s0.handlers[r].Redis?
                             && forall j :: 0 <= j < r ==> s0.handlers[j].Redis? || Passes(answers[j])
  {
    RedisReachedIff(s0.handlers, answers, 0);
    if Displaced(s0.redis, s0.readers, i) {
      OwnCloseOfDisplaced(s0, s, steps, t, i, answers);
    } else if RedisReached(s0.handlers, answers, 0) {
      OwnCallKeepsPlace(s0, s, steps, t, i, answers);
      OwnCloseReaches(s0, s, steps, t, i, answers);
    } else {
      OwnCloseMisses(s0, s, steps, t, i, answers);
    }
  }

  // ---------------------------------------------------------------------------
  // Exactly which readers a Range closes
  // ---------------------------------------------------------------------------

  /** Of the readers stored when a Range begins, it leaves out the displaced ones: they
      are not Closed when it ends, nor ever after. */
  lemma RangeLeavesDisplaced(s0: State, s: State, steps: seq<Step>, t: State, i: nat)
    requires Reachable(s0) && Do(s0, InsideClose(RangeBegin)) == Some(s) && Run(s, steps) == Some(t)
    requires i < |s0.readers| && s0.readers[i].state != RP.Closed && Displaced(s0.redis, s0.readers, i)
    ensures i < |t.readers| && t.readers[i].state != RP.Closed
  {
    StopTargets(s0);
    NotRanging(s0, s);
    OutOfReachKept(s0, InsideClose(RangeBegin), s, i);
    OutOfReachRuns(s, steps, t, i);
  }

  lemma NotRanging(s0: State, s: State)
    requires Do(s0, InsideClose(RangeBegin)) == Some(s)
    ensures !InRange(s0)
  {}

  /** From the start of HandleWebsocketClose in s0 to its end in t, whatever else runs in
      between: a reader stored and past line 63 in s0, not Closed then and whose ID is not
      started again meanwhile, is Closed in t iff it is not displaced in s0. */
  lemma RangeClosesExactlyIf(s0: State, s: State, steps: seq<Step>, m: State, t: State, i: nat)
    requires Reachable(s0) && Do(s0, InsideClose(RangeBegin)) == Some(s)
    requires Run(s, steps) == Some(m) && InsideClose(RangeEnd) !in steps
    requires Do(m, InsideClose(RangeEnd)) == Some(t)
    requires i < |s0.readers| && s0.readers[i].state != RP.Closed && !s0.readers[i].pc.Launched?
    requires NotRestarted(s, steps, i)
    ensures i < |t.readers|
    ensures t.readers[i].state == RP.Closed <==> !Displaced(s0.redis, s0.readers, i)
  {
    RangeCloses(s0, s, steps, m, t, i);
    if Displaced(s0.redis, s0.readers, i) {
      RunSnoc(s, steps, InsideClose(RangeEnd));
      RangeLeavesDisplaced(s0, s, steps + [InsideClose(RangeEnd)], t, i);
    } else {
      RangeStartsMapped(s0, s, i);
      StaysMappedRun(s, steps, m, i);
      StepInvariant(m, InsideClose(RangeEnd), t);
      StaysMapped(m, InsideClose(RangeEnd), t, i);
    }
  }

  lemma RangeStartsMapped(s0: State, s: State, i: nat)
    requires Reachable(s0) && Do(s0, InsideClose(RangeBegin)) == Some(s)
    requires i < |s0.readers| && !Displaced(s0.redis, s0.readers, i)
    ensures Invariant(s) && i < |s.readers| && !Displaced(s.redis, s.readers, i)
  {
    Invariants(s0);
    StepInvariant(s0, InsideClose(RangeBegin), s);
    StaysMapped(s0, InsideClose(RangeBegin), s, i);
  }
}

/** The queues over whole runs: conservation, the exact condition under which
    processMessages blocks itself, and how much is processed after an EOF. */
module Blocking {
  import opened Options
  import opened Channels
  import opened Machine
  import opened Control
  import opened Lifecycle

  // ---------------------------------------------------------------------------
  // Conservation
  // ---------------------------------------------------------------------------

  /** Whatever the senders and closers do, the messages dequeued are, in order and
      without loss or repetition, the first ones enqueued; at most ten are pending. */
  lemma QueueConservation(s: State)
    requires Reachable(s)
    ensures s.inq.put == s.inq.got + s.inq.buf && |s.inq.buf| <= CAPACITY
    ensures s.outq.put == s.outq.got + s.outq.buf && |s.outq.buf| <= CAPACITY
  {
    Invariants(s);
  }

  /** The logs never lose an entry: what a run has enqueued or dequeued stays. */
  lemma LogsOnlyGrow(s: State, steps: seq<Step>, t: State)
    requires Reachable(s) && Run(s, steps) == Some(t)
    ensures s.inq.put <= t.inq.put && s.inq.got <= t.inq.got
    ensures s.outq.put <= t.outq.put && s.outq.got <= t.outq.got
  {
    Invariants(s);
    RunForward(s, steps, t);
  }

  // ---------------------------------------------------------------------------
  // processMessages sending to itself
  // ---------------------------------------------------------------------------

  /** The step by which processMessages sends, at the six places where it does. */
  function OwnSend(p: ProcPc): Option<Step> {
    match p
    case ConnErrSend => Some(InitStage(ConnErrSent))     // 153
    case OpErrSend(_) => Some(StartStage(OpErrSent))     // 175
    case PanicEofSend => Some(LeaveStage(SendPanicEof))  // 298
    case EofSend => Some(InitStage(SendEof))             // 599, 637
    case AckSend => Some(InitStage(SendAck))             // 610
    case _ => None
  }

  predicate SendsToItself(p: ProcPc) {
    p.EofSend? || p.PanicEofSend?
  }

  /** The queue it is about to send on is open and full. */
  predicate Stuck(s: State) {
    OwnSend(s.proc).Some? && if SendsToItself(s.proc) then s.inq.Full() else s.outq.Full()
  }

  /** Of the queue it sends on: closed or not, and the messages pending. */
  function QueueOf(s: State): (bool, nat) {
    if SendsToItself(s.proc) then (s.inq.closed, |s.inq.buf|) else (s.outq.closed, |s.outq.buf|)
  }

  lemma BlocksExactlyWhenFull(s: State)
    requires QueuesConserved(s) && OwnSend(s.proc).Some? && !s.crashed
    ensures Do(s, OwnSend(s.proc).value).None? <==> Stuck(s)
    ensures Stuck(s) <==> !QueueOf(s).0 && QueueOf(s).1 == CAPACITY
  {}

  /** What another goroutine can do to processMessages and the two queues while it is
      blocked: a full queue can only be closed. */
  ghost predicate Undisturbed(s: State, s': State) {
    && s'.proc == s.proc
    && (s.inq.Full() ==> s'.inq == s.inq || s'.inq == s.inq.Close())
    && (s.outq.Full() ==> s'.outq == s.outq || s'.outq == s.outq.Close())
    && (s.lock.ReadLocked? ==>
          s'.lock == s.lock && s'.outq.closed == s.outq.closed && s'.inq.closed == s.inq.closed
          && s'.state == s.state && s'.shutdown == s.shutdown && s'.results == s.results)
  }

  predicate OthersStep(a: Step) {
    a.ReadPumpStep? || a.InsideClose? || a.OutsiderStep? || a.RedisReaderStep? || a.EnvironmentStep?
  }

  lemma ReadUndisturbed(s: State, x: ReadStep, s': State)
    requires DoRead(s, x) == Some(s')
    ensures Undisturbed(s, s')
  {
    match x
    case ReadSetState =>
    case ReadCheck =>
    case ReadGot(m) =>
    case ReadPeerClose =>
    case ReadPanics =>
    case ReadFails(e) =>
    case ReadPut => if s.inq.closed {} else {}
    case ReadClose => if s.state == Closed {} else if s.shutdown {} else {}
  }

  lemma BroadcastUndisturbed(s: State, todo: seq<HandlerKind>, x: CloseStep, s': State)
    requires s.lock.WriteLocked? && !s.lock.owner.Process? && DoBroadcast(s, todo, x) == Some(s')
    ensures Undisturbed(s, s')
  {
    match x
    case CallCloser(answer) =>
      if answer.Panics? {} else if answer.result.Plain? {} else {}
    case LastCloser =>
    case RangeBegin =>
    case _ =>
  }

  lemma CloseUndisturbed(s: State, x: CloseStep, s': State)
    requires TeardownProgress(s) && !s.proc.ProcIn? && DoClose(s, x) == Some(s')
    ensures Undisturbed(s, s')
  {
    match s.lock.phase
    case Broadcast(todo) => BroadcastUndisturbed(s, todo, x, s');
    case Ranging(_, _, _, _, _) =>
      match x {
        case RangePick(key) =>
        case RangeCheck =>
        case RangeSet =>
        case RangeEnd =>
        case _ =>
      }
    case CloseOut =>
    case CloseIn =>
    case CloseSocket =>
  }

  lemma OutUndisturbed(s: State, n: nat, x: OutStep, s': State)
    requires n < |s.outs| && DoOut(s, n, x) == Some(s')
    ensures Undisturbed(s, s')
  {
    match x
    case OutCheck =>
    case OutWrite(ok) =>
    case OutClose => if s.state == Closed {} else if s.shutdown {} else {}
  }

  lemma ReaderUndisturbed(s: State, i: nat, x: ReaderStep, s': State)
    requires i < |s.readers| && DoReader(s, i, x) == Some(s')
    ensures Undisturbed(s, s')
  {
    if x.SelfClose? {
      if s.state == Closed {} else if s.shutdown {} else {}
    } else if x.SendStep? {
      ReaderSendUndisturbed(s, i, s');
    } else {
    }
  }

  lemma ReaderSendUndisturbed(s: State, i: nat, s': State)
    requires i < |s.readers| && DoReader(s, i, SendStep) == Some(s')
    ensures Undisturbed(s, s')
  {
    if s.outq.closed {} else {}
  }

  lemma EnvUndisturbed(s: State, x: EnvStep, s': State)
    requires DoEnv(s, x) == Some(s')
    ensures Undisturbed(s, s')
  {
    match x
    case AddHandler(k) =>
    case SpawnCloser =>
    case OutsideSend =>
  }

  lemma OthersDoNotDisturb(s: State, a: Step, s': State)
    requires TeardownProgress(s) && !s.proc.ProcIn? && OthersStep(a) && Do(s, a) == Some(s')
    ensures Undisturbed(s, s')
  {
    match a
    case ReadPumpStep(x) => ReadUndisturbed(s, x, s');
    case InsideClose(x) => CloseUndisturbed(s, x, s');
    case OutsiderStep(n, x) => OutUndisturbed(s, n, x, s');
    case RedisReaderStep(i, x) => ReaderUndisturbed(s, i, x, s');
    case EnvironmentStep(x) => EnvUndisturbed(s, x, s');
    case _ =>
  }

  /** Blocked in its own send, processMessages itself takes no step. */
  lemma StuckTakesNoStep(s: State, a: Step)
    requires Stuck(s) && !OthersStep(a)
    ensures Do(s, a).None?
  {
    match a
    case SelectLoop(x) =>
    case InitStage(x) =>
    case StartStage(x) =>
    case StopStage(x) =>
    case LeaveStage(x) =>
    case _ =>
  }

  lemma StuckOutside(s: State)
    requires Stuck(s)
    ensures !s.proc.ProcIn?
  {}

  lemma StuckStep(s: State, a: Step, s': State)
    requires TeardownProgress(s) && Stuck(s) && Do(s, a) == Some(s')
    ensures Undisturbed(s, s')
  {
    StuckOutside(s);
    if OthersStep(a) { OthersDoNotDisturb(s, a, s'); } else { StuckTakesNoStep(s, a); }
  }

  /** Its own send blocks iff the queue is open with exactly ten messages pending. As the
      only receiver of both queues it cannot drain what it is then waiting for: the full
      queue at 153, 175, 298, 599, 610 or 637 stays as it is until close closes it. */
  lemma FullQueueLeftOnlyByClose(s: State, a: Step, s': State)
    requires Reachable(s) && OwnSend(s.proc).Some? && Do(s, a) == Some(s')
    ensures Do(s, OwnSend(s.proc).value).None? <==> !QueueOf(s).0 && QueueOf(s).1 == CAPACITY
    ensures Do(s, OwnSend(s.proc).value).None? ==>
              && s'.proc == s.proc
              && (SendsToItself(s.proc) ==> s'.inq == s.inq || s'.inq == s.inq.Close())
              && (!SendsToItself(s.proc) ==> s'.outq == s.outq || s'.outq == s.outq.Close())
  {
    Invariants(s);
    BlocksExactlyWhenFull(s);
    if Stuck(s) { StuckStep(s, a, s'); }
  }

  // ---------------------------------------------------------------------------
  // Deadlock with the read lock held
  // ---------------------------------------------------------------------------

  /** Waiting at 153 or 175 on the full outgoing queue, with the read lock held. */
  predicate Deadlocked(s: State) {
    (s.proc.ConnErrSend? || s.proc.OpErrSend?) && s.outq.Full()
  }

  lemma DeadlockedIsStuck(s: State)
    requires CloseDiscipline(s) && Deadlocked(s)
    ensures Stuck(s) && s.lock.ReadLocked?
  {}

  lemma StaysDeadlocked(s: State, s': State)
    requires Deadlocked(s) && s.lock.ReadLocked? && Undisturbed(s, s')
    ensures Deadlocked(s') && s'.proc == s.proc && s'.outq == s.outq && s'.state == s.state
    ensures s'.results == s.results && s'.lock == s.lock
  {}

  lemma DeadlockStep(s: State, a: Step, s': State)
    requires CloseDiscipline(s) && Deadlocked(s) && Do(s, a) == Some(s')
    ensures Deadlocked(s') && s'.proc == s.proc && s'.outq == s.outq && s'.state == s.state
    ensures s'.results == s.results && s'.lock == s.lock
  {
    DeadlockedIsStuck(s);
    StuckStep(s, a, s');
    StaysDeadlocked(s, s');
  }

  /** From there on, in every run, nothing moves it: processMessages stays where it
      is, no call of close ever returns, the connection state is frozen. */
  lemma {:induction false} DeadlockIsForever(s: State, steps: seq<Step>, t: State)
    requires Invariant(s) && Deadlocked(s) && Run(s, steps) == Some(t)
    ensures Invariant(t) && Deadlocked(t)
    ensures t.proc == s.proc && t.outq == s.outq && t.state == s.state && t.results == s.results
    ensures t.lock == ReadLocked && t.state != Closed
  {
    if steps != [] {
      var init := steps[..|steps| - 1];
      var m := Run(s, init).value;
      DeadlockIsForever(s, init, m);
      DeadlockStep(m, steps[|steps| - 1], t);
      StepInvariant(m, steps[|steps| - 1], t);
    }
  }

  // ---------------------------------------------------------------------------
  // After an EOF
  // ---------------------------------------------------------------------------

  lemma LastEof(got: seq<InMsg>)
    requires EOF in got && forall k :: 0 <= k < |got| - 1 ==> got[k] != EOF
    ensures got[|got| - 1] == EOF
  {}

  lemma EofTaken(s: State)
    requires EofEnds(s) && EOF in s.inq.got
    ensures Exiting(s.proc) && s.inq.got[|s.inq.got| - 1] == EOF
  {
    LastEof(s.inq.got);
  }

  lemma ExitingTakesNothing(s: State, steps: seq<Step>, t: State)
    requires Invariant(s) && Exiting(s.proc) && Run(s, steps) == Some(t)
    ensures t.inq.got == s.inq.got && Exiting(t.proc)
  {
    RunForward(s, steps, t);
  }

  /** No message is taken after the EOF. */
  lemma NothingAfterEof(s: State, steps: seq<Step>, t: State)
    requires Reachable(s) && EOF in s.inq.got && Run(s, steps) == Some(t)
    ensures t.inq.got == s.inq.got && Exiting(t.proc)
    ensures s.inq.got[|s.inq.got| - 1] == EOF
  {
    Invariants(s);
    EofTaken(s);
    ExitingTakesNothing(s, steps, t);
  }

  lemma EofBounds(s: State, e: nat)
    requires Invariant(s) && e < |s.inq.put| && s.inq.put[e] == EOF
    ensures |s.inq.got| <= e + 1
    ensures |s.inq.got| == e + 1 ==> s.inq.got[e] == EOF
  {
    if |s.inq.got| > e { assert s.inq.got[e] == s.inq.put[e]; }
  }

  /** Once the EOF of a terminate or of a failed init (or of readPump) is enqueued, at
      most nine other messages are still taken, in every continuation of the run. */
  lemma AtMostNineAfterEof(s0: State, a: Step, s: State, steps: seq<Step>, t: State)
    requires Reachable(s0) && Do(s0, a) == Some(s) && s.inq.put == s0.inq.put + [EOF]
    requires Run(s, steps) == Some(t)
    ensures |t.inq.got| - |s.inq.got| <= CAPACITY
    ensures |t.inq.got| - |s.inq.got| == CAPACITY ==> t.inq.got[|t.inq.got| - 1] == EOF && Exiting(t.proc)
    ensures EOF !in t.inq.got ==> |t.inq.got| - |s.inq.got| <= CAPACITY - 1
  {
    Invariants(s0);
    StepInvariant(s0, a, s);
    RunForward(s, steps, t);
    var e := |s0.inq.put|;
    assert s.inq.put[e] == EOF && t.inq.put[e] == EOF;
    EofBounds(t, e);
    assert |s.inq.put| == |s.inq.got| + |s.inq.buf|;
    if |t.inq.got| == e + 1 { assert t.inq.got[e] in t.inq.got; }
  }
}

/** What comes of a message once it is taken, and of a call of close once it is at work,
    over whole runs. */
module Outcomes {
  import opened Options
  import opened Ast
  import opened Channels
  import opened Machine
  import opened Dispatch
  import opened Control
  import opened World
  import opened Frames
  import opened Lifecycle
  import opened Blocking
  import opened Flow
  import opened ReaderSteps
  import RP = RedisProtocol

  // ---------------------------------------------------------------------------
  // What processMessages does first with a message
  // ---------------------------------------------------------------------------

  /** It takes the oldest message, and goes: out of its loop with an EOF; to the handlers
      of a connection_init or a connection_terminate, all of them; to the state check of a
      start; to gqlStop with the ID of the payload; to close with a stop that has no
      payload (674); to unwind with one that does not unmarshal (669), or with the nil of a
      drained closed queue; nowhere with any other (676). */
  lemma MessageTaken(s: State, s': State)
    requires Reachable(s) && Do(s, SelectLoop(TakeIn)) == Some(s')
    ensures s.proc == Select && s' == s.(inq := s'.inq, proc := s'.proc)
    ensures s.inq.buf == [] ==> s'.inq == s.inq && s'.proc == ProcCall(LeaveLoop(true))
    ensures s.inq.buf != [] ==>
              && s'.inq.got == s.inq.got + [s.inq.buf[0]] && s'.inq.put == s.inq.put
              && s'.proc == match s.inq.buf[0]
                            case EOF => ProcCall(LeaveLoop(false))
                            case Init => InitCalls(s.handlers)
                            case Terminate => TerminateCalls(s.handlers)
                            case Start(id, start) => StartCheck(id, start)
                            case Stop(EmptyStop) => ProcCall(FromStop)
                            case Stop(BadStop) => ProcCall(LeaveLoop(true))
                            case Stop(StopBody(id)) => StopLoad(id)
                            case Other => Select
  {
    CanExactly(s, SelectLoop(TakeIn));
    SelectFlows(s, TakeIn, s');
  }

  // ---------------------------------------------------------------------------
  // connection_terminate and a failed connection_init end in the EOF
  // ---------------------------------------------------------------------------

  /** On the way to the EOF of 599 or 637. */
  predicate EofDue(p: ProcPc) {
    p.TerminateCalls? || p.ConnErrCheck? || p.ConnErrSend? || p.EofSend?
  }

  lemma InitEofDue(s: State, x: InitStep, s': State)
    requires EofDue(s.proc) && DoInit(s, x) == Some(s')
    ensures EofDue(s'.proc) || s'.inq.put == s.inq.put + [EOF] || Exiting(s'.proc)
  {
    InitCans(s, x);
    InitFlows(s, x, s');
  }

  lemma OnlyInitStage(s: State, a: Step)
    requires EofDue(s.proc) && !OthersStep(a) && Do(s, a).Some?
    ensures a.InitStage?
  {
    CanExactly(s, a);
  }

  lemma EofDueKept(s: State, a: Step, s': State)
    requires TeardownProgress(s) && EofDue(s.proc) && Do(s, a) == Some(s')
    ensures EofDue(s'.proc) || s'.inq.put == s.inq.put + [EOF] || Exiting(s'.proc)
  {
    if OthersStep(a) {
      OthersDoNotDisturb(s, a, s');
    } else {
      OnlyInitStage(s, a);
      InitEofDue(s, a.t, s');
    }
  }

  /** An EOF enqueued between two states of a run. */
  ghost predicate EofSince(s: State, t: State) {
    && s.inq.put <= t.inq.put && EOF in t.inq.put[|s.inq.put|..]
  }

  lemma EofSinceStep(s: State, m: State, t: State)
    requires s.inq.put <= m.inq.put <= t.inq.put
    requires EofSince(s, m) || t.inq.put == m.inq.put + [EOF]
    ensures EofSince(s, t)
  {
    var n := |s.inq.put|;
    if EofSince(s, m) {
      var k :| 0 <= k < |m.inq.put[n..]| && m.inq.put[n..][k] == EOF;
      assert t.inq.put[n..][k] == EOF;
    } else {
      assert t.inq.put[n..][|m.inq.put| - n] == EOF;
    }
  }

  lemma {:induction false} EofFollows(s: State, steps: seq<Step>, t: State)
    requires Invariant(s) && EofDue(s.proc) && Run(s, steps) == Some(t)
    ensures Invariant(t) && s.inq.put <= t.inq.put
    ensures EofDue(t.proc) || EofSince(s, t) || Exiting(t.proc)
  {
    if steps != [] {
      var n := |steps| - 1;
      var m := Run(s, steps[..n]).value;
      EofFollows(s, steps[..n], m);
      StepInvariant(m, steps[n], t);
      EofStep(s, m, steps[n], t);
    }
  }

  lemma EofStep(s: State, m: State, a: Step, t: State)
    requires TeardownProgress(m) && Forward(m, a, t) && Do(m, a) == Some(t) && s.inq.put <= m.inq.put
    requires EofDue(m.proc) || EofSince(s, m) || Exiting(m.proc)
    ensures s.inq.put <= t.inq.put
    ensures EofDue(t.proc) || EofSince(s, t) || Exiting(t.proc)
  {
    if EofSince(s, m) {
      EofSinceStep(s, m, t);
    } else if EofDue(m.proc) {
      EofDueKept(m, a, t);
      if t.inq.put == m.inq.put + [EOF] { EofSinceStep(s, m, t); }
    }
  }

  /** When processMessages takes a connection_terminate it calls the terminate handlers,
      all of them being due, and under no interleaving does it get back to its select
      loop, or anywhere else, without having enqueued an EOF since, unless it is
      unwinding. */
  lemma TerminateEnqueuesEof(s0: State, s: State, steps: seq<Step>, t: State)
    requires Reachable(s0) && s0.inq.buf != [] && s0.inq.buf[0] == Terminate
    requires Do(s0, SelectLoop(TakeIn)) == Some(s) && Run(s, steps) == Some(t)
    ensures s.proc == TerminateCalls(s0.handlers) && s.inq.put == s0.inq.put
    ensures t.proc.TerminateCalls? || t.proc.EofSend? || t.proc.ConnErrCheck? || t.proc.ConnErrSend?
            || Exiting(t.proc)
            || exists k :: |s.inq.put| <= k < |t.inq.put| && t.inq.put[k] == EOF
  {
    Invariants(s0);
    StepInvariant(s0, SelectLoop(TakeIn), s);
    CanExactly(s0, SelectLoop(TakeIn));
    SelectFlows(s0, TakeIn, s);
    EofFollows(s, steps, t);
    ShowEof(s, t);
  }

  /** The same after an init handler has failed: with a plain error, on the way through
      connection_error, or with a HandlerError that carries neither flag. */
  lemma FailedInitEnqueuesEof(s0: State, r: HandlerResult, s: State, steps: seq<Step>, t: State)
    requires Reachable(s0) && s0.proc.InitCalls? && (r == Plain || r == Flagged(false, false))
    requires Do(s0, InitStage(CallHandler(Returns(r)))) == Some(s) && Run(s, steps) == Some(t)
    ensures r == Plain ==> s.proc == ConnErrCheck
    ensures r != Plain ==> s.proc == EofSend
    ensures t.proc.ConnErrCheck? || t.proc.ConnErrSend? || t.proc.EofSend? || t.proc.TerminateCalls?
            || Exiting(t.proc)
            || exists k :: |s.inq.put| <= k < |t.inq.put| && t.inq.put[k] == EOF
  {
    var a := InitStage(CallHandler(Returns(r)));
    Invariants(s0);
    StepInvariant(s0, a, s);
    CanExactly(s0, a);
    InitFlows(s0, CallHandler(Returns(r)), s);
    EofFollows(s, steps, t);
    ShowEof(s, t);
  }

  lemma ShowEof(s: State, t: State)
    ensures EofSince(s, t) ==> exists k :: |s.inq.put| <= k < |t.inq.put| && t.inq.put[k] == EOF
  {
    if EofSince(s, t) {
      var n := |s.inq.put|;
      var k :| 0 <= k < |t.inq.put[n..]| && t.inq.put[n..][k] == EOF;
      assert t.inq.put[n + k] == EOF;
    }
  }

  // ---------------------------------------------------------------------------
  // start
  // ---------------------------------------------------------------------------

  /** Once the HandleConnectionStart calls are through: the subscription is stored and its
      start handlers are due iff ID and query are not empty, the query parses and the
      document is valid; otherwise nothing is stored and nobody is called. */
  lemma StartStoresIff(s: State, id: string, start: StartBody, r: HandlerResult, s': State)
    requires Reachable(s) && s.proc == Validate(id, start)
    requires Do(s, StartStage(ValidateStart(Returns(r)))) == Some(s')
    ensures var ok := id != "" && start.StartBody? && start.query != "" && start.parsed.Some? && start.valid;
            && (s'.proc.SubStartCalls? <==> ok)
            && (ok ==>
                  && id in s'.subs && s'.proc == SubStartCalls(s'.subs[id], s.handlers)
                  && s'.subs[id].id == id && s'.subs[id].query == start.query && s'.subs[id].document == start.parsed
                  && s'.subs[id].fields == FieldNames(start.parsed.value)
                  && forall k :: k in s.subs && k != id ==> k in s'.subs && s'.subs[k] == s.subs[k])
            && (!ok ==> s'.proc == Select && s'.subs == s.subs)
  {
    var x := ValidateStart(Returns(r));
    CanExactly(s, StartStage(x));
    ValidateFlows(s, Returns(r), s');
  }

  // ---------------------------------------------------------------------------
  // The receive loop of a reader
  // ---------------------------------------------------------------------------

  lemma OwnReceive(s: State, i: nat, x: ReaderStep, s': State)
    requires i < |s.readers| && Do(s, RedisReaderStep(i, x)) == Some(s') && Listening(s.readers[i].pc)
    ensures ReaderAt(s.readers[i], x) && !x.SelfClose?
  {}

  lemma ReceiveLoopStep(s: State, a: Step, s': State, i: nat)
    requires StartStored(s) && TeardownProgress(s) && Do(s, a) == Some(s') && i < |s.readers|
    requires Listening(s.readers[i].pc)
    ensures i < |s'.readers|
    ensures !Listening(s'.readers[i].pc) ==>
              || a == RedisReaderStep(i, ReceiveStep(RP.Failure))
              || (a == RedisReaderStep(i, LoopCheck) && s.readers[i].state == RP.Closed)
    ensures a.RedisReaderStep? && a.i == i && a.d.ReceiveStep? ==>
              match a.d.e
              case Failure => s'.readers[i].pc == Top
              case Incoming(m) =>
                s'.readers[i].pc == (if m.marshals then ReaderPc.SendData(m.result) else ReaderPc.Loop)
              case _ => s'.readers[i].pc == ReaderPc.Loop
  {
    ReaderStepped(s, a, s', i);
    if a.RedisReaderStep? && a.i == i {
      OwnReceive(s, i, a.d, s');
      match a.d
      case LoopCheck =>
      case LoadConn =>
      case ReceiveStep(e) =>
      case SendStep =>
      case _ =>
    }
  }

  /** A reader leaves its receive loop only by its own step: a failure of Receive, or the
      check of line 108 finding it Closed. After any other event it is at that check, or
      sending the result of the message it received. */
  lemma ReceiveLoopEnds(s: State, a: Step, s': State, i: nat)
    requires Reachable(s) && Do(s, a) == Some(s') && i < |s.readers|
    requires var p := s.readers[i].pc; p.Loop? || p.Receive? || p.Waiting? || p.SendData?
    ensures i < |s'.readers|
    ensures var p := s'.readers[i].pc; !(p.Loop? || p.Receive? || p.Waiting? || p.SendData?) ==>
              || a == RedisReaderStep(i, ReceiveStep(RP.Failure))
              || (a == RedisReaderStep(i, LoopCheck) && s.readers[i].state == RP.Closed)
    ensures a.RedisReaderStep? && a.i == i && a.d.ReceiveStep? ==>
              match a.d.e
              case Failure => s'.readers[i].pc == Top
              case Incoming(m) =>
                s'.readers[i].pc == (if m.marshals then ReaderPc.SendData(m.result) else ReaderPc.Loop)
              case _ => s'.readers[i].pc == ReaderPc.Loop
  {
    Invariants(s);
    ReceiveLoopStep(s, a, s', i);
  }

  // ---------------------------------------------------------------------------
  // close is never stuck
  // ---------------------------------------------------------------------------

  /** What a Range refers to is there. */
  ghost predicate RangeGrounded(s: State) {
    InRange(s) ==>
      && s.lock.phase.must <= s.redis.Keys
      && (!s.lock.phase.at.Pick? ==> s.lock.phase.at.j < |s.readers|)
  }

  lemma CloseGrounded(s: State, x: CloseStep, s': State)
    requires Consistent(s) && RangeGrounded(s) && TeardownProgress(s) && !s.crashed
    requires DoClose(s, x) == Some(s') && |s.readers| <= |s'.readers| && s'.redis == s.redis
    ensures RangeGrounded(s')
  {
    if InRange(s') {
      CloseCans(s, x);
      CloseFlows(s, x, s');
    }
  }

  lemma GroundedKept(s: State, a: Step, s': State)
    requires Invariant(s) && RangeGrounded(s) && Do(s, a) == Some(s')
    ensures Invariant(s') && RangeGrounded(s')
  {
    StepInvariant(s, a, s');
    if a.InsideClose? { CloseGrounded(s, a.c, s'); } else { OutsideGrounded(s, a, s'); }
  }

  lemma OutsideGrounded(s: State, a: Step, s': State)
    requires Forward(s, a, s') && RangeGrounded(s) && !a.InsideClose?
    ensures RangeGrounded(s')
  {}

  lemma {:induction false} GroundedRun(s: State, steps: seq<Step>, t: State)
    requires Invariant(s) && RangeGrounded(s) && Run(s, steps) == Some(t)
    ensures Invariant(t) && RangeGrounded(t)
  {
    if steps != [] {
      var init := steps[..|steps| - 1];
      var m := Run(s, init).value;
      GroundedRun(s, init, m);
      GroundedKept(m, steps[|steps| - 1], t);
    }
  }

  /** The next step of the close at work. */
  ghost function NextOfClose(s: State): CloseStep
    requires s.lock.WriteLocked?
  {
    match s.lock.phase
    case Broadcast(todo) =>
      if todo == [] then LastCloser else if todo[0].User? then CallCloser(Returns(Nil)) else RangeBegin
    case Ranging(_, _, must, visited, at) =>
      (match at
       case Pick =>
         if must <= visited then RangeEnd
         else var key :| key in must && key !in visited; RangePick(key)
       case Check(_) => RangeCheck
       case Set(_) => RangeSet)
    case CloseOut => CloseOutgoing
    case CloseIn => CloseIncoming
    case CloseSocket => CloseConn(true)
  }

  /** While a call of close holds the lock it can always go on: it waits for nothing that
      another goroutine would have to do. */
  lemma CloseNeverWaits(s: State)
    requires Reachable(s) && !s.crashed && s.lock.WriteLocked?
    ensures exists x :: Do(s, InsideClose(x)).Some?
  {
    var bad, steps :| Run(Start0(bad), steps) == Some(s);
    ControlStarts(bad);
    WorldStarts(bad);
    GroundedRun(Start0(bad), steps, s);
    NextCan(s);
    CanExactly(s, InsideClose(NextOfClose(s)));
  }

  lemma NextCan(s: State)
    requires s.lock.WriteLocked? && RangeGrounded(s) && !s.crashed
    ensures Can(s, InsideClose(NextOfClose(s)))
  {
    match s.lock.phase
    case Broadcast(todo) =>
    case Ranging(_, _, must, visited, at) => if must <= visited {} else {}
    case _ =>
  }
}

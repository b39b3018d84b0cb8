/** Invariants of the connection itself: the queues, the lock and close, the
    handshake, and how processMessages ends. Each holds initially and is kept by
    every step of every goroutine. */
module Control {
  import opened Options
  import opened Channels
  import opened Machine
  import opened Subscriptions
  import RP = RedisProtocol

  // ---------------------------------------------------------------------------
  // Invariants
  // ---------------------------------------------------------------------------

  ghost predicate QueuesConserved(s: State) {
    s.inq.Conserved() && s.outq.Conserved()
  }

  /** Calls of close that got past its guard and have returned. */
  function Passed(results: seq<CloseReturn>): nat {
    if results == [] then 0
    else Passed(results[..|results| - 1]) + (if results[|results| - 1].result.Refused? then 0 else 1)
  }

  predicate OwnerInside(s: State, who: Tid) {
    match who
    case ReadPump => s.read.InClose?
    case Process => s.proc.ProcIn?
    case Outsider(n) => n < |s.outs| && s.outs[n].OutIn?
    case ReaderThread(i) => i < |s.readers| && s.readers[i].pc.SelfIn?
  }

  /** While close is at work: what is closed so far. */
  predicate TeardownProgress(s: State) {
    s.lock.WriteLocked? ==>
      && s.shutdown && s.state == Closed && OwnerInside(s, s.lock.owner)
      && (s.outq.closed <==> s.lock.phase.CloseIn? || s.lock.phase.CloseSocket?)
      && (s.inq.closed <==> s.lock.phase.CloseSocket?)
  }

  ghost predicate CloseDiscipline(s: State) {
    && TeardownProgress(s)
    && (s.lock.ReadLocked? <==> s.proc.ConnErrSend? || s.proc.OpErrSend?)
    && (s.lock.ReadLocked? ==> s.state != Closed)
    && (s.inq.closed ==> s.outq.closed)
    && (s.outq.closed ==> s.shutdown)
    && (s.shutdown <==> s.hist.passes > 0)
    && (s.results != [] ==> s.shutdown)
    && s.hist.passes == s.hist.reopens + (if s.state == Closed then 1 else 0)
    && s.hist.passes == Passed(s.results) + (if s.lock.WriteLocked? then 1 else 0)
  }

  /** Messages only a connection past its handshake sends. */
  predicate NeedsAck(m: OutMsg) {
    m.Data? || m.OperationErrors?
  }

  ghost predicate AckFirst(put: seq<OutMsg>) {
    forall i :: 0 <= i < |put| && NeedsAck(put[i]) ==> Ack in put[..i]
  }

  /** processMessages is serving a start that found the state Established. */
  predicate Serving(p: ProcPc) {
    p.StartUnmarshal? || p.OpErrCheck? || p.OpErrSend? || p.Validate? || p.SubStartCalls?
  }

  ghost predicate Handshake(s: State) {
    && AckFirst(s.outq.put)
    && (Serving(s.proc) || s.readers != [] ==> Ack in s.outq.put)
    && (s.state == Established ==> Ack in s.outq.put || s.proc.AckSend? || Exiting(s.proc))
    && (Ack in s.outq.put || s.proc.AckSend? || s.state == Established || s.subs != map[] ==> s.hist.inits > 0)
  }

  /** Until readPump has written line 445 nothing but an EOF was ever enqueued, so
      no handshake can have begun. */
  ghost predicate BeforeReading(s: State) {
    s.read.SetInitializing? ==>
      && (forall m :: m in s.inq.put ==> m == EOF)
      && (s.proc.Boot? || s.proc.Select? || Exiting(s.proc))
      && (s.state == Undefined || s.state == Closed)
  }

  /** Line 445 is the first write of the state, unless close came earlier. */
  ghost predicate UndefinedEnds(s: State) {
    s.state == Undefined ==> s.read.SetInitializing?
  }

  ghost predicate EofEnds(s: State) {
    && (EOF in s.inq.got ==> Exiting(s.proc))
    && (forall k :: 0 <= k < |s.inq.got| - 1 ==> s.inq.got[k] != EOF)
  }

  /** Did processMessages' deferred close return? */
  ghost predicate DeferredCloseDone(s: State) {
    exists r :: r in s.results && r.who == Process && r.leaving
  }

  ghost predicate Unwinding(s: State) {
    && (s.proc.Boot? ==> !s.hist.ticker)
    && (!s.hist.ticker ==> s.proc.Boot? || (s.badTicker && Exiting(s.proc)))
    && (AfterClose(s.proc) && s.hist.ticker ==>
          DeferredCloseDone(s) && (s.state == Closed || s.hist.lateInit))
    && (s.proc.PanicEofSend? && s.hist.ticker ==> s.hist.lateInit)
    && (s.hist.lateInit ==> !s.read.SetInitializing? && AfterClose(s.proc))
  }

  ghost predicate Controlled(s: State) {
    QueuesConserved(s) && CloseDiscipline(s) && Handshake(s) && BeforeReading(s) && UndefinedEnds(s)
    && EofEnds(s) && Unwinding(s)
  }

  // ---------------------------------------------------------------------------
  // Small facts
  // ---------------------------------------------------------------------------

  lemma SendFacts<T>(c: Chan<T>, m: T)
    requires c.Conserved() && (c.closed || c.CanSend())
    ensures SendUnlessClosed(c, m).Conserved()
    ensures SendUnlessClosed(c, m).got == c.got && SendUnlessClosed(c, m).closed == c.closed
    ensures SendUnlessClosed(c, m).put == if c.closed then c.put else c.put + [m]
  {
    if !c.closed { SendConserves(c, m); }
  }

  lemma PassedSnoc(results: seq<CloseReturn>, r: CloseReturn)
    ensures Passed(results + [r]) == Passed(results) + (if r.result.Refused? then 0 else 1)
  {
    assert (results + [r])[..|results|] == results;
  }

  lemma AckFirstSnoc(put: seq<OutMsg>, m: OutMsg)
    requires AckFirst(put) && (NeedsAck(m) ==> Ack in put)
    ensures AckFirst(put + [m]) && (Ack in put + [m] <==> Ack in put || m == Ack)
  {
    var all := put + [m];
    forall i | 0 <= i < |all| && NeedsAck(all[i]) ensures Ack in all[..i] {
      assert all[..i] == put[..i];
      if i == |put| { assert put[..i] == put; }
    }
  }

  // ---------------------------------------------------------------------------
  // Preservation
  // ---------------------------------------------------------------------------

  /** processMessages may move on to p without touching anything else. */
  ghost predicate CanMove(s: State, p: ProcPc) {
    && !s.proc.Boot? && !s.proc.ProcIn? && !s.proc.ConnErrSend? && !s.proc.OpErrSend? && !s.proc.AckSend?
    && !p.Boot? && !p.ConnErrSend? && !p.OpErrSend? && !p.AckSend?
    && (Serving(p) ==> Ack in s.outq.put)
    && (Exiting(s.proc) ==> Exiting(p))
    && (AfterClose(s.proc) <==> AfterClose(p))
    && (p.PanicEofSend? ==> s.state != Closed)
    && (s.read.SetInitializing? ==> p.Select? || Exiting(p))
  }

  lemma MoveKeeps(s: State, p: ProcPc)
    requires Controlled(s) && CanMove(s, p)
    ensures Controlled(s.(proc := p))
  {}

  /** A reader changed in place by whoever touches it. */
  lemma ReaderChangeKeeps(s: State, i: nat, r: Reader)
    requires Controlled(s) && i < |s.readers| && (s.readers[i].pc.SelfIn? ==> r.pc.SelfIn?)
    ensures Controlled(s.(readers := s.readers[i := r]))
  {}

  /** A message sent on the open outgoing queue, before the sender moves on. */
  lemma SendKeeps(s: State, m: OutMsg)
    requires Controlled(s) && s.outq.CanSend() && (NeedsAck(m) ==> Ack in s.outq.put)
    requires m == Ack ==> s.hist.inits > 0
    ensures Controlled(s.(outq := s.outq.Send(m)))
  {
    SendFacts(s.outq, m);
    AckFirstSnoc(s.outq.put, m);
  }

  lemma ReadKeeps(s: State, a: ReadStep, s': State)
    requires Controlled(s) && DoRead(s, a) == Some(s') && !a.ReadClose?
    ensures Controlled(s')
  {
    match a
    case ReadSetState =>
    case ReadCheck =>
    case ReadGot(m) =>
    case ReadPeerClose =>
    case ReadPanics =>
    case ReadFails(e) =>
    case ReadPut => SendFacts(s.inq, s.read.m);
    case ReadClose =>
  }

  lemma TakeInKeeps(s: State, s': State)
    requires Controlled(s) && DoSelect(s, TakeIn) == Some(s') && s.inq.buf != []
    ensures Controlled(s')
  {
    ReceiveConserves(s.inq);
    assert s.inq.put[|s.inq.got|] in s.inq.put;
  }

  lemma TickerKeeps(s: State, s': State)
    requires Controlled(s) && DoSelect(s, MakeTicker) == Some(s')
    ensures Controlled(s')
  {}

  lemma SelectKeeps(s: State, a: SelectStep, s': State)
    requires Controlled(s) && DoSelect(s, a) == Some(s')
    ensures Controlled(s')
  {
    match a
    case MakeTicker => TickerKeeps(s, s');
    case SeeShutdown => MoveKeeps(s, s'.proc);
    case TakeIn =>
      if s.inq.buf != [] { TakeInKeeps(s, s'); } else { MoveKeeps(s, s'.proc); }
    case TakeOut =>
      if s.outq.buf != [] { ReceiveConserves(s.outq); } else {}
    case Ping(ok) => MoveKeeps(s, s'.proc);
  }

  lemma AckKeeps(s: State, s': State)
    requires Controlled(s) && DoInit(s, SendAck) == Some(s')
    ensures Controlled(s')
  {
    if !s.outq.closed { SendKeeps(s, Ack); } else {}
  }

  lemma ConnErrKeeps(s: State, s': State)
    requires Controlled(s) && DoInit(s, ConnErrSent) == Some(s')
    ensures Controlled(s')
  {
    if !s.outq.closed { SendKeeps(s, ConnectionError); } else {}
  }

  lemma EofKeeps(s: State, s': State)
    requires Controlled(s) && DoInit(s, SendEof) == Some(s')
    ensures Controlled(s')
  {
    SendFacts(s.inq, EOF);
  }

  lemma HandshakeKeeps(s: State, a: InitStep, s': State)
    requires Controlled(s) && DoInit(s, a) == Some(s') && (a.ConnErrChecked? || a.SetEstablished?)
    ensures Controlled(s')
  {
    match a
    case ConnErrChecked => if s.state == Closed { MoveKeeps(s, s'.proc); } else {}
    case SetEstablished =>
    case _ =>
  }

  lemma CallKeeps(s: State, answer: Answer, s': State)
    requires Controlled(s) && DoInit(s, CallHandler(answer)) == Some(s')
    ensures Controlled(s')
  {
    MoveKeeps(s, s'.proc);
  }

  lemma InitKeeps(s: State, a: InitStep, s': State)
    requires Controlled(s) && DoInit(s, a) == Some(s')
    ensures Controlled(s')
  {
    match a
    case CallHandler(answer) => CallKeeps(s, answer, s');
    case SkipHandler => MoveKeeps(s, s'.proc);
    case EndCalls => MoveKeeps(s, s'.proc);
    case ConnErrChecked => HandshakeKeeps(s, a, s');
    case SetEstablished => HandshakeKeeps(s, a, s');
    case SendAck => AckKeeps(s, s');
    case ConnErrSent => ConnErrKeeps(s, s');
    case SendEof => EofKeeps(s, s');
  }

  lemma OpErrKeeps(s: State, a: StartStep, s': State)
    requires Controlled(s) && DoStart(s, a) == Some(s') && (a.OpErrSent? || a.OpErrChecked?)
    ensures Controlled(s')
  {
    match a
    case OpErrSent =>
      if !s.outq.closed { SendKeeps(s, OperationErrors(s.proc.id)); } else {}
    case OpErrChecked(_) =>
    case _ =>
  }

  lemma StoreKeeps(s: State, subs: map<string, Subscription>, origin: map<string, StartBody>, p: ProcPc)
    requires Controlled(s) && Serving(s.proc) && !s.proc.OpErrSend? && p.SubStartCalls?
    ensures Controlled(s.(subs := subs, origin := origin, proc := p))
  {}

  lemma RefusedMove(s: State, calls: Answer, s': State)
    requires BeforeReading(s) && DoStart(s, ValidateStart(calls)) == Some(s')
    requires calls.Panics? || !Accepts(s.proc.id, s.proc.start)
    ensures s' == s.(proc := s'.proc) && CanMove(s, s'.proc)
  {}

  lemma ValidateKeeps(s: State, calls: Answer, s': State)
    requires Controlled(s) && DoStart(s, ValidateStart(calls)) == Some(s')
    ensures Controlled(s')
  {
    if calls.Panics? || !Accepts(s.proc.id, s.proc.start) {
      RefusedMove(s, calls, s');
      MoveKeeps(s, s'.proc);
    } else {
      StoreKeeps(s, s'.subs, s'.origin, s'.proc);
    }
  }

  lemma RedisStartKeeps(s: State, fields: seq<RP.FieldOutcome>, s': State)
    requires Controlled(s) && DoStart(s, RedisStart(fields)) == Some(s')
    ensures Controlled(s')
  {
    if RP.StartTopics(fields).None? { MoveKeeps(s, s'.proc); } else {}
  }

  lemma StartKeeps(s: State, a: StartStep, s': State)
    requires Controlled(s) && DoStart(s, a) == Some(s')
    ensures Controlled(s')
  {
    match a
    case CheckEstablished => MoveKeeps(s, s'.proc);
    case Unmarshal => MoveKeeps(s, s'.proc);
    case CallSubHandler(answer) => MoveKeeps(s, s'.proc);
    case EndSubCalls => MoveKeeps(s, s'.proc);
    case ValidateStart(calls) => ValidateKeeps(s, calls, s');
    case RedisStart(fields) => RedisStartKeeps(s, fields, s');
    case RedisStartPanics => MoveKeeps(s, s'.proc);
    case _ => OpErrKeeps(s, a, s');
  }

  lemma StopSetKeeps(s: State, s': State)
    requires Controlled(s) && DoStop(s, ReaderSet) == Some(s')
    ensures Controlled(s')
  {
    ReaderChangeKeeps(s, s.proc.j, s'.readers[s.proc.j]);
    MoveKeeps(s.(readers := s'.readers), s'.proc);
  }

  lemma StopKeeps(s: State, a: StopStep, s': State)
    requires Controlled(s) && DoStop(s, a) == Some(s')
    ensures Controlled(s')
  {
    match a
    case ReaderSet => StopSetKeeps(s, s');
    case _ => MoveKeeps(s, s'.proc);
  }

  lemma PanicHandlerKeeps(s: State, answer: Answer, s': State)
    requires Controlled(s) && DoLeave(s, CallPanicHandler(answer)) == Some(s')
    ensures Controlled(s')
  {}

  lemma PanicEofKeeps(s: State, s': State)
    requires Controlled(s) && DoLeave(s, SendPanicEof) == Some(s')
    ensures Controlled(s')
  {
    SendFacts(s.inq, EOF);
  }

  lemma LeaveMove(s: State, a: LeaveStep, s': State)
    requires CloseDiscipline(s) && BeforeReading(s) && DoLeave(s, a) == Some(s')
    requires a.SkipPanicHandler? || a.EndPanicCalls? || a.CheckPanicState?
    ensures s' == s.(proc := s'.proc) && CanMove(s, s'.proc)
  {
    match a
    case SkipPanicHandler =>
    case EndPanicCalls =>
    case CheckPanicState =>
    case _ =>
  }

  lemma LeaveKeeps(s: State, a: LeaveStep, s': State)
    requires Controlled(s) && DoLeave(s, a) == Some(s') && !a.ProcClose?
    ensures Controlled(s')
  {
    match a
    case CallPanicHandler(answer) => PanicHandlerKeeps(s, answer, s');
    case SendPanicEof => PanicEofKeeps(s, s');
    case _ =>
      LeaveMove(s, a, s');
      MoveKeeps(s, s'.proc);
  }

  lemma OutKeeps(s: State, n: nat, a: OutStep, s': State)
    requires Controlled(s) && n < |s.outs| && DoOut(s, n, a) == Some(s') && !a.OutClose?
    ensures Controlled(s')
  {
    match a
    case OutCheck =>
    case OutWrite(ok) =>
    case OutClose =>
  }

  lemma EnvKeeps(s: State, a: EnvStep, s': State)
    requires Controlled(s) && DoEnv(s, a) == Some(s')
    ensures Controlled(s')
  {
    match a
    case AddHandler(k) =>
    case SpawnCloser =>
    case OutsideSend =>
      SendKeeps(s, Outside);
  }

  lemma ReaderSendKeeps(s: State, i: nat, s': State)
    requires Controlled(s) && i < |s.readers| && DoReader(s, i, SendStep) == Some(s') && !s.outq.closed
    ensures Controlled(s')
  {
    var m := Data(i, s.readers[i].sub.id, s.readers[i].pc.result);
    SendKeeps(s, m);
    ReaderChangeKeeps(s.(outq := s.outq.Send(m)), i, s'.readers[i]);
  }

  lemma ReaderKeeps(s: State, i: nat, a: ReaderStep, s': State)
    requires Controlled(s) && i < |s.readers| && DoReader(s, i, a) == Some(s') && !a.SelfClose?
    ensures Controlled(s')
  {
    if !a.SendStep? {
      ReaderChangeKeeps(s, i, s'.readers[i]);
    } else if !s.outq.closed {
      ReaderSendKeeps(s, i, s');
    } else {}
  }

  // ---------------------------------------------------------------------------
  // close
  // ---------------------------------------------------------------------------

  /** A call of close that returns: the lock is free again and its result is logged.
      `done` is the state with all of that but the move of the goroutine that called. */
  lemma ReleaseKeeps(s: State, r: CloseReturn, hist: History, done: State)
    requires Controlled(s) && s.shutdown && !s.lock.ReadLocked?
    requires hist == s.hist.(passes := hist.passes)
    requires hist.passes == hist.reopens + 1 == Passed(s.results) + (if r.result.Refused? then 0 else 1)
    requires done == s.(lock := Free, state := Closed, hist := hist, results := s.results + [r])
    ensures Controlled(done)
  {
    PassedSnoc(s.results, r);
  }

  lemma ReadReturns(s: State, read: ReadPc, crashed: bool)
    requires Controlled(s) && !s.lock.WriteLocked? && !read.SetInitializing?
    requires s.read.SetInitializing? ==> read == s.read
    ensures Controlled(s.(read := read, crashed := crashed))
  {}

  lemma ProcessReturns(s: State, res: CloseResult)
    requires Controlled(s) && s.lock.Free? && s.state == Closed
    requires (s.proc.ProcCall? || s.proc.ProcIn?) && s.results != []
    requires s.proc.psite.LeaveLoop? ==> DeferredCloseDone(s)
    ensures Controlled(s.(proc := ProcAfter(s.proc, s.handlers, res)))
  {}

  lemma CallerReturns(s: State, outs: seq<OutPc>, readers: seq<Reader>, crashed: bool)
    requires Controlled(s) && !s.lock.WriteLocked? && |readers| == |s.readers|
    ensures Controlled(s.(outs := outs, readers := readers, crashed := crashed))
  {}

  /** Of the goroutines only the caller moves. */
  lemma ReturnShape(s: State, who: Tid, res: CloseResult, hist: History, done: State, t: State)
    requires t == Returned(s.(lock := Free, state := Closed, hist := hist), who, res)
    requires done == s.(lock := Free, state := Closed, hist := hist,
                        results := s.results + [CloseReturn(who, Leaving(s, who), res)])
    ensures who.ReadPump? ==> t == done.(read := ReadAfter(s.read, res), crashed := t.crashed)
    ensures who.Process? ==> t == done.(proc := ProcAfter(s.proc, s.handlers, res))
    ensures !who.ReadPump? && !who.Process? ==>
              t == done.(outs := t.outs, readers := t.readers, crashed := t.crashed) && |t.readers| == |s.readers|
  {}

  lemma ReturnKeeps(s: State, who: Tid, res: CloseResult, t: State)
    requires Controlled(s) && s.shutdown && !s.lock.ReadLocked? && Calling(s, who)
    requires t == Returned(s.(lock := Free, state := Closed, hist := t.hist), who, res)
    requires t.hist == s.hist.(passes := t.hist.passes)
    requires t.hist.passes == t.hist.reopens + 1 == Passed(s.results) + (if res.Refused? then 0 else 1)
    ensures Controlled(t)
  {
    var r := CloseReturn(who, Leaving(s, who), res);
    var done := s.(lock := Free, state := Closed, hist := t.hist, results := s.results + [r]);
    ReleaseKeeps(s, r, t.hist, done);
    ReturnShape(s, who, res, t.hist, done, t);
    if who.ReadPump? {
      ReadReturns(done, t.read, t.crashed);
    } else if who.Process? {
      assert r in done.results;
      ProcessReturns(done, res);
    } else {
      CallerReturns(done, t.outs, t.readers, t.crashed);
    }
  }

  /** The goroutine is about to call close or inside it. */
  predicate Calling(s: State, who: Tid) {
    match who
    case ReadPump => s.read.CallClose? || s.read.InClose?
    case Process => s.proc.ProcCall? || s.proc.ProcIn?
    case _ => true
  }

  lemma EntryKeeps(s: State, who: Tid)
    requires Controlled(s) && s.lock.Free? && s.state != Closed && !s.shutdown
    requires match who
             case ReadPump => s.read.CallClose?
             case Process => s.proc.ProcCall?
             case Outsider(n) => n < |s.outs|
             case ReaderThread(i) => i < |s.readers|
    ensures Controlled(Acquire(s, who))
  {
    match who
    case ReadPump =>
    case Process =>
    case Outsider(n) =>
    case ReaderThread(i) =>
  }

  lemma AcquireKeeps(s: State, who: Tid)
    requires Controlled(s) && s.lock.Free?
    requires match who
             case ReadPump => s.read.CallClose?
             case Process => s.proc.ProcCall?
             case Outsider(n) => n < |s.outs|
             case ReaderThread(i) => i < |s.readers|
    ensures Controlled(Acquire(s, who))
  {
    if s.state == Closed {
      ReturnKeeps(s, who, Refused, Acquire(s, who));
    } else if s.shutdown {
      ReturnKeeps(s, who, Panicked, Acquire(s, who));
    } else {
      EntryKeeps(s, who);
    }
  }

  lemma UnlockKeeps(s: State, res: CloseResult)
    requires Controlled(s) && s.lock.WriteLocked? && !res.Refused?
    ensures Controlled(Unlock(s, res))
  {
    ReturnKeeps(s, s.lock.owner, res, Unlock(s, res));
  }

  lemma PhaseKeeps(s: State, phase: ClosePhase)
    requires Controlled(s) && s.lock.WriteLocked?
    requires !s.lock.phase.CloseIn? && !s.lock.phase.CloseSocket? && !phase.CloseIn? && !phase.CloseSocket?
    ensures Controlled(At(s, phase))
  {}

  lemma BroadcastKeeps(s: State, todo: seq<HandlerKind>, a: CloseStep, s': State)
    requires Controlled(s) && s.lock.WriteLocked? && s.lock.phase == Broadcast(todo)
    requires DoBroadcast(s, todo, a) == Some(s')
    ensures Controlled(s')
  {
    match a
    case CallCloser(answer) =>
      if answer.Panics? {
        UnlockKeeps(s, Panicked);
      } else if answer.result.Plain? {
        UnlockKeeps(s, HandlerFailed);
      } else {
        PhaseKeeps(s, s'.lock.phase);
      }
    case LastCloser => PhaseKeeps(s, s'.lock.phase);
    case RangeBegin => PhaseKeeps(s, s'.lock.phase);
    case _ =>
  }

  lemma RangeKeeps(s: State, a: CloseStep, s': State)
    requires Controlled(s) && s.lock.WriteLocked? && s.lock.phase.Ranging?
    requires DoRange(s, s.lock.phase, a) == Some(s')
    ensures Controlled(s')
  {
    match a
    case RangePick(key) => PhaseKeeps(s, s'.lock.phase);
    case RangeCheck => PhaseKeeps(s, s'.lock.phase);
    case RangeSet =>
      ReaderChangeKeeps(s, s.lock.phase.at.j, s'.readers[s.lock.phase.at.j]);
      PhaseKeeps(s.(readers := s'.readers), s'.lock.phase);
    case RangeEnd =>
    case _ =>
  }

  lemma CloseKeeps(s: State, a: CloseStep, s': State)
    requires Controlled(s) && DoClose(s, a) == Some(s')
    ensures Controlled(s')
  {
    match s.lock.phase
    case Broadcast(todo) => BroadcastKeeps(s, todo, a, s');
    case Ranging(_, _, _, _, _) => RangeKeeps(s, a, s');
    case CloseOut =>
    case CloseIn =>
    case CloseSocket => UnlockKeeps(s, TornDown(a.ok));
  }

  // ---------------------------------------------------------------------------
  // The induction
  // ---------------------------------------------------------------------------

  lemma ControlStarts(bad: bool)
    ensures Controlled(Start0(bad))
  {}

  lemma ControlKept(s: State, a: Step, s': State)
    requires Controlled(s) && Do(s, a) == Some(s')
    ensures Controlled(s')
  {
    match a
    case ReadPumpStep(x) =>
      if x.ReadClose? { AcquireKeeps(s, ReadPump); } else { ReadKeeps(s, x, s'); }
    case SelectLoop(x) => SelectKeeps(s, x, s');
    case InitStage(x) => InitKeeps(s, x, s');
    case StartStage(x) => StartKeeps(s, x, s');
    case StopStage(x) => StopKeeps(s, x, s');
    case LeaveStage(x) =>
      if x.ProcClose? { AcquireKeeps(s, Process); } else { LeaveKeeps(s, x, s'); }
    case InsideClose(x) => CloseKeeps(s, x, s');
    case OutsiderStep(n, x) =>
      if x.OutClose? { AcquireKeeps(s, Outsider(n)); } else { OutKeeps(s, n, x, s'); }
    case RedisReaderStep(i, x) =>
      if x.SelfClose? { AcquireKeeps(s, ReaderThread(i)); } else { ReaderKeeps(s, i, x, s'); }
    case EnvironmentStep(x) => EnvKeeps(s, x, s');
  }
}

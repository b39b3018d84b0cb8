/** Concrete runs: what the conditions of the safety lemmas leave open does happen. */
module Witnesses {
  import opened Options
  import opened Channels
  import opened Machine
  import opened Runs
  import opened Dispatch
  import opened Frames
  import opened Lifecycle

  // One step further along a run, by goroutine.

  lemma ReadTo(s: State, x: ReadStep, t: State)
    requires Reachable(s) && !s.crashed && DoRead(s, x) == Some(t)
    ensures Reachable(t)
  {
    ReachableStep(s, ReadPumpStep(x), t);
  }

  lemma SelectTo(s: State, x: SelectStep, t: State)
    requires Reachable(s) && !s.crashed && DoSelect(s, x) == Some(t)
    ensures Reachable(t)
  {
    ReachableStep(s, SelectLoop(x), t);
  }

  lemma LeaveTo(s: State, x: LeaveStep, t: State)
    requires Reachable(s) && !s.crashed && DoLeave(s, x) == Some(t)
    ensures Reachable(t)
  {
    ReachableStep(s, LeaveStage(x), t);
  }

  lemma CloseTo(s: State, x: CloseStep, t: State)
    requires Reachable(s) && !s.crashed && DoClose(s, x) == Some(t)
    ensures Reachable(t)
  {
    ReachableStep(s, InsideClose(x), t);
  }

  lemma OutTo(s: State, x: OutStep, t: State)
    requires Reachable(s) && !s.crashed && |s.outs| > 0 && DoOut(s, 0, x) == Some(t)
    ensures Reachable(t)
  {
    ReachableStep(s, OutsiderStep(0, x), t);
  }

  lemma EnvTo(s: State, x: EnvStep, t: State)
    requires Reachable(s) && !s.crashed && DoEnv(s, x) == Some(t)
    ensures Reachable(t)
  {
    ReachableStep(s, EnvironmentStep(x), t);
  }

  lemma Started(bad: bool)
    ensures Reachable(Start0(bad))
  {
    assert Run(Start0(bad), []) == Some(Start0(bad));
  }

  /** With a PongWait for which NewTicker panics, the panic handlers run on an open
      connection and line 298 is reached. */
  lemma PanicEofWithoutTicker() returns (s: State)
    ensures Reachable(s) && s.proc.PanicEofSend? && s.state == Undefined && s.results == []
  {
    var s0 := Start0(true);
    Started(true);
    var s1 := DoSelect(s0, MakeTicker).value;
    SelectTo(s0, MakeTicker, s1);
    var s2 := DoLeave(s1, EndPanicCalls).value;
    LeaveTo(s1, EndPanicCalls, s2);
    s := DoLeave(s2, CheckPanicState).value;
    LeaveTo(s2, CheckPanicState, s);
  }

  /** An outside Close is about to call close before readPump has started. */
  ghost predicate Early(s: State, o: OutPc) {
    && s.state == Undefined && s.lock == Free && !s.shutdown && s.inq == Open() && s.outq == Open()
    && s.handlers == [] && s.read == SetInitializing && s.proc == Select && s.hist.ticker && !s.crashed
    && s.outs == [o] && s.hist.reopens == 0
  }

  /** The connection is Closed, the queues as far as said, readPump has not started. */
  ghost predicate EarlyTeardown(s: State, out: bool, inc: bool) {
    && s.state == Closed && s.shutdown
    && s.outq == (if out then Open().Close() else Open()) && s.inq == (if inc then Open().Close() else Open())
    && s.handlers == [] && s.read == SetInitializing && s.proc == Select && s.hist.ticker && !s.crashed
    && s.outs == [OutIn] && s.hist.reopens == 0
  }

  lemma EarlyCall() returns (s: State)
    ensures Reachable(s) && Early(s, OutCall)
  {
    var s0 := Start0(false);
    Started(false);
    var s1 := DoSelect(s0, MakeTicker).value;
    SelectTo(s0, MakeTicker, s1);
    var s2 := DoEnv(s1, SpawnCloser).value;
    EnvTo(s1, SpawnCloser, s2);
    var s3 := DoOut(s2, 0, OutCheck).value;
    OutTo(s2, OutCheck, s3);
    s := DoOut(s3, 0, OutWrite(true)).value;
    OutTo(s3, OutWrite(true), s);
  }

  lemma EarlyShutdown() returns (s: State)
    ensures Reachable(s) && EarlyTeardown(s, false, false) && s.lock == WriteLocked(Outsider(0), CloseOut)
  {
    var s0 := EarlyCall();
    var s1 := DoOut(s0, 0, OutClose).value;
    OutTo(s0, OutClose, s1);
    s := DoClose(s1, LastCloser).value;
    CloseTo(s1, LastCloser, s);
  }

  lemma EarlyQueues() returns (s: State)
    ensures Reachable(s) && EarlyTeardown(s, true, true) && s.lock == WriteLocked(Outsider(0), CloseSocket)
  {
    var s0 := EarlyShutdown();
    var s1 := DoClose(s0, CloseOutgoing).value;
    CloseTo(s0, CloseOutgoing, s1);
    s := DoClose(s1, CloseIncoming).value;
    CloseTo(s1, CloseIncoming, s);
  }

  /** processMessages has received nil from the closed queue and panicked. */
  lemma EarlyPanic() returns (s: State)
    ensures Reachable(s) && s.proc == PanicCheck && s.state == Closed && s.lock == Free
    ensures s.read == SetInitializing && s.shutdown && s.hist.ticker && !s.crashed && s.hist.reopens == 0
  {
    var s0 := EarlyQueues();
    var s1 := DoClose(s0, CloseConn(true)).value;
    CloseTo(s0, CloseConn(true), s1);
    var s2 := DoSelect(s1, TakeIn).value;
    SelectTo(s1, TakeIn, s2);
    var s3 := DoLeave(s2, ProcClose).value;
    LeaveTo(s2, ProcClose, s3);
    s := DoLeave(s3, EndPanicCalls).value;
    LeaveTo(s3, EndPanicCalls, s);
  }

  /** Closed is not absorbing: readPump's unguarded write at 445 reopens it, and line 298
      is reached although the ticker exists. */
  lemma ReopenedByReadPump() returns (s: State, s': State)
    ensures Reachable(s) && s.state == Closed
    ensures Do(s, ReadPumpStep(ReadSetState)) == Some(s') && s'.state == Initializing
    ensures exists t :: Do(s', LeaveStage(CheckPanicState)) == Some(t) && t.proc.PanicEofSend? && t.hist.ticker
  {
    s := EarlyPanic();
    s' := DoRead(s, ReadSetState).value;
    var t := DoLeave(s', CheckPanicState).value;
    assert Do(s', LeaveStage(CheckPanicState)) == Some(t);
  }

  lemma ReadAgain() returns (s: State)
    ensures Reachable(s) && s.state == Initializing && s.lock == Free && s.shutdown && s.hist.passes == 1
    ensures s.read == CallClose(CloseHandler) && !s.crashed
  {
    var s0 := EarlyPanic();
    PassesSoFar(s0);
    var s1 := DoRead(s0, ReadSetState).value;
    ReadTo(s0, ReadSetState, s1);
    var s2 := DoRead(s1, ReadCheck).value;
    ReadTo(s1, ReadCheck, s2);
    s := DoRead(s2, ReadPeerClose).value;
    ReadTo(s2, ReadPeerClose, s);
  }

  lemma PassesSoFar(s: State)
    requires Reachable(s)
    ensures s.hist.passes == s.hist.reopens + One(s.state == Closed)
  {
    Invariants(s);
  }

  /** Then the peer closes: the guard is passed a second time, and close panics. */
  lemma SecondPass() returns (s: State, s': State)
    ensures Reachable(s) && PassesGuard(s, ReadPumpStep(ReadClose)) && s.hist.passes > 0
    ensures Do(s, ReadPumpStep(ReadClose)) == Some(s')
    ensures s'.results != [] && s'.results[|s'.results| - 1].result == Panicked
  {
    s := ReadAgain();
    s' := DoRead(s, ReadClose).value;
  }

  // ---------------------------------------------------------------------------
  // A deadlock
  // ---------------------------------------------------------------------------

  /** Outside callers of SendData may fill the outgoing queue whatever else goes on. */
  lemma {:induction false} Fill(s: State) returns (t: State)
    requires Reachable(s) && !s.crashed && !s.outq.closed && |s.outq.buf| <= CAPACITY
    ensures Reachable(t) && t == s.(outq := t.outq) && t.outq.Full()
    decreases CAPACITY - |s.outq.buf|
  {
    if |s.outq.buf| == CAPACITY {
      t := s;
    } else {
      var s1 := DoEnv(s, OutsideSend).value;
      EnvTo(s, OutsideSend, s1);
      t := Fill(s1);
    }
  }

  /** A connection with one user handler, about to read. */
  ghost predicate Fresh(s: State) {
    && s.state == Initializing && s.lock == Free && s.proc == Select && !s.crashed && !s.shutdown
    && s.handlers == [User] && s.outq == Open() && !s.inq.closed && s.readers == [] && s.redis == map[]
    && s.outs == [] && s.hist.ranged.None?
  }

  lemma Reading() returns (s: State)
    ensures Reachable(s) && Fresh(s) && s.read == CheckState && s.inq == Open()
  {
    var s0 := Start0(false);
    Started(false);
    var s1 := DoSelect(s0, MakeTicker).value;
    SelectTo(s0, MakeTicker, s1);
    var s2 := DoEnv(s1, AddHandler(User)).value;
    EnvTo(s1, AddHandler(User), s2);
    s := DoRead(s2, ReadSetState).value;
    ReadTo(s2, ReadSetState, s);
  }

  /** An init message is waiting on it. */
  lemma InitWaiting() returns (s: State)
    ensures Reachable(s) && Fresh(s) && s.read == CheckState && s.inq.buf == [Init]
  {
    var s0 := Reading();
    var s1 := DoRead(s0, ReadCheck).value;
    ReadTo(s0, ReadCheck, s1);
    var s2 := DoRead(s1, ReadGot(Init)).value;
    ReadTo(s1, ReadGot(Init), s2);
    s := DoRead(s2, ReadPut).value;
    ReadTo(s2, ReadPut, s);
  }

  lemma InitTo(s: State, x: InitStep, t: State)
    requires Reachable(s) && !s.crashed && DoInit(s, x) == Some(t)
    ensures Reachable(t)
  {
    ReachableStep(s, InitStage(x), t);
  }

  /** A failing init handler on a connection whose outgoing queue outside callers have
      filled: processMessages waits for the queue only it can drain, and holds the
      read lock that every close needs. */
  lemma DeadlockHappens() returns (s: State)
    ensures Reachable(s) && s.proc == ConnErrSend && s.outq.Full() && s.lock == ReadLocked
  {
    var s0 := InitWaiting();
    var s1 := DoSelect(s0, TakeIn).value;
    SelectTo(s0, TakeIn, s1);
    var s2 := DoInit(s1, CallHandler(Returns(Plain))).value;
    InitTo(s1, CallHandler(Returns(Plain)), s2);
    var s3 := DoInit(s2, ConnErrChecked).value;
    InitTo(s2, ConnErrChecked, s3);
    s := Fill(s3);
  }
}

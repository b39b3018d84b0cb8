/** When the process dies: a panic that nothing recovers. */
module Crashes {
  import opened Options
  import opened Machine
  import opened Control
  import opened World
  import opened Lifecycle
  import RP = RedisProtocol

  /** Whoever reaches the guard of close, shutdown is closed afterwards. */
  lemma ShutAfter(s: State, who: Tid)
    requires CloseDiscipline(s)
    ensures Acquire(s, who).shutdown
  {
    if s.state == Closed {} else if s.shutdown {} else {}
  }

  lemma ReadSurvives(s: State, x: ReadStep, s': State)
    requires CloseDiscipline(s) && DoRead(s, x) == Some(s')
    ensures s'.crashed ==> s.crashed || s'.shutdown
  {
    match x
    case ReadSetState =>
    case ReadCheck =>
    case ReadGot(m) =>
    case ReadPeerClose =>
    case ReadPanics =>
    case ReadFails(e) =>
    case ReadPut =>
    case ReadClose => ShutAfter(s, ReadPump);
  }

  lemma SelectSurvives(s: State, x: SelectStep, s': State)
    requires DoSelect(s, x) == Some(s')
    ensures s'.crashed == s.crashed
  {
    match x
    case MakeTicker =>
    case SeeShutdown =>
    case TakeIn =>
    case TakeOut =>
    case Ping(ok) =>
  }

  lemma InitSurvives(s: State, x: InitStep, s': State)
    requires DoInit(s, x) == Some(s')
    ensures s'.crashed == s.crashed
  {
    match x
    case CallHandler(answer) =>
    case SkipHandler =>
    case EndCalls =>
    case ConnErrChecked =>
    case ConnErrSent =>
    case SendEof =>
    case SetEstablished =>
    case SendAck =>
  }

  lemma StartSurvives(s: State, x: StartStep, s': State)
    requires DoStart(s, x) == Some(s')
    ensures s'.crashed == s.crashed
  {
    match x
    case CheckEstablished =>
    case Unmarshal =>
    case OpErrChecked(marshals) =>
    case OpErrSent =>
    case ValidateStart(calls) => if calls.Panics? || !Accepts(s.proc.id, s.proc.start) {} else {}
    case CallSubHandler(answer) =>
    case RedisStart(fields) => if RP.StartTopics(fields).None? {} else {}
    case RedisStartPanics =>
    case EndSubCalls =>
  }

  lemma StopSurvives(s: State, x: StopStep, s': State)
    requires DoStop(s, x) == Some(s')
    ensures s'.crashed == s.crashed
  {
    match x
    case LoadStop(calls) =>
    case CallStopHandler(answer) =>
    case RedisStop =>
    case ReaderCheck =>
    case ReaderSet =>
    case EndStopCalls =>
  }

  /** Past its deferred close, with the ticker made, shutdown is closed. */
  lemma ShutWhenUnwinding(s: State)
    requires CloseDiscipline(s) && Unwinding(s) && AfterClose(s.proc)
    ensures s.shutdown || s.badTicker
  {}

  lemma LeaveSurvives(s: State, x: LeaveStep, s': State)
    requires CloseDiscipline(s) && Unwinding(s) && DoLeave(s, x) == Some(s')
    ensures s'.crashed ==> s.crashed || s'.shutdown || (x == CallPanicHandler(Panics) && s.badTicker)
  {
    match x
    case ProcClose => ShutAfter(s, Process);
    case CallPanicHandler(answer) => ShutWhenUnwinding(s);
    case SkipPanicHandler =>
    case EndPanicCalls =>
    case CheckPanicState =>
    case SendPanicEof => if s.inq.closed {} else {}
  }

  lemma OutSurvives(s: State, n: nat, x: OutStep, s': State)
    requires CloseDiscipline(s) && n < |s.outs| && DoOut(s, n, x) == Some(s')
    ensures s'.crashed ==> s.crashed || s'.shutdown
  {
    match x
    case OutCheck =>
    case OutWrite(ok) =>
    case OutClose => ShutAfter(s, Outsider(n));
  }

  lemma ReaderSurvives(s: State, i: nat, x: ReaderStep, s': State)
    requires CloseDiscipline(s) && ReadersOk(s.readers) && i < |s.readers| && DoReader(s, i, x) == Some(s')
    ensures s'.crashed ==> s.crashed || s'.shutdown || (x.LoadConn? && s.readers[i].wasClosed)
  {
    if x.SelfClose? {
      ShutAfter(s, ReaderThread(i));
    } else if x.SendStep? {
      if s.outq.closed {} else {}
    } else if x.LoadConn? {
      assert ReaderOk(s.readers[i]);
    } else {}
  }

  lemma EnvSurvives(s: State, x: EnvStep, s': State)
    requires DoEnv(s, x) == Some(s')
    ensures s'.crashed == s.crashed
  {
    match x
    case AddHandler(k) =>
    case SpawnCloser =>
    case OutsideSend =>
  }

  /** As long as shutdown is open the process dies in two ways only: a panic handler
      panics after NewTicker did, or a reader that reader.close has closed between lines
      108 and 118 finds its pubSubConn nil. */
  lemma ProcessDiesOnly(s: State, a: Step, s': State)
    requires Reachable(s) && Do(s, a) == Some(s') && s'.crashed
    ensures || s'.shutdown
            || (a == LeaveStage(CallPanicHandler(Panics)) && s.badTicker)
            || (a.RedisReaderStep? && a.d.LoadConn? && a.i < |s.readers| && s.readers[a.i].wasClosed)
  {
    Invariants(s);
    match a
    case ReadPumpStep(x) => ReadSurvives(s, x, s');
    case SelectLoop(x) => SelectSurvives(s, x, s');
    case InitStage(x) => InitSurvives(s, x, s');
    case StartStage(x) => StartSurvives(s, x, s');
    case StopStage(x) => StopSurvives(s, x, s');
    case LeaveStage(x) => LeaveSurvives(s, x, s');
    case InsideClose(x) => StepInvariant(s, a, s');
    case OutsiderStep(n, x) => OutSurvives(s, n, x, s');
    case RedisReaderStep(i, x) => ReaderSurvives(s, i, x, s');
    case EnvironmentStep(x) => EnvSurvives(s, x, s');
  }
}

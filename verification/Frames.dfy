/** What one step may do to the parts of the state that only ever move forward, and
    which steps write the connection state. */
module Frames {
  import opened Options
  import opened Channels
  import opened Control
  import opened Machine
  import RP = RedisProtocol

  /** The step is a call of close reaching its guard (line 187). */
  predicate ClosesConn(a: Step) {
    || a == ReadPumpStep(ReadClose)
    || a == LeaveStage(ProcClose)
    || (a.OutsiderStep? && a.o.OutClose?)
    || (a.RedisReaderStep? && a.d.SelfClose?)
  }

  /** The connection state after a step: only close and the two setState calls write it. */
  function NewState(s: State, a: Step): ConnState {
    if a == ReadPumpStep(ReadSetState) then Initializing
    else if a == InitStage(SetEstablished) then Established
    else if ClosesConn(a) then Closed
    else s.state
  }

  /** The guard of close is passed, so line 192 writes Closed. */
  predicate PassesGuard(s: State, a: Step) {
    ClosesConn(a) && s.state != Closed
  }

  /** setState is called while the connection is Closed. */
  predicate Reopens(s: State, a: Step) {
    (a == ReadPumpStep(ReadSetState) || a == InitStage(SetEstablished)) && s.state == Closed
  }

  predicate Extends<T(==)>(c: Chan<T>, c': Chan<T>) {
    c.put <= c'.put && c.got <= c'.got && (c.closed ==> c'.closed)
  }

  /** Who calls close with this step. */
  function CloserOf(a: Step): Tid
    requires ClosesConn(a)
  {
    match a
    case ReadPumpStep(_) => ReadPump
    case OutsiderStep(n, _) => Outsider(n)
    case RedisReaderStep(i, _) => ReaderThread(i)
    case _ => Process
  }

  function One(b: bool): nat {
    if b then 1 else 0
  }

  ghost predicate Counts(s: State, a: Step, s': State) {
    && s'.state == NewState(s, a)
    && s'.hist.passes == s.hist.passes + One(PassesGuard(s, a))
    && s'.hist.reopens == s.hist.reopens + One(Reopens(s, a))
    && s'.hist.inits == s.hist.inits + One(a == InitStage(SetEstablished))
    && s'.hist.lateInit == (if a == ReadPumpStep(ReadSetState) then AfterClose(s.proc) else s.hist.lateInit)
    && s'.badTicker == s.badTicker
  }

  ghost predicate Forward(s: State, a: Step, s': State) {
    && Extends(s.inq, s'.inq) && Extends(s.outq, s'.outq)
    && s.results <= s'.results
    && (s.shutdown ==> s'.shutdown)
    && (Exiting(s.proc) ==> Exiting(s'.proc) && s'.inq.got == s.inq.got)
    && (s.hist.ticker ==> s'.hist.ticker)
    && (!s.read.SetInitializing? ==> !s'.read.SetInitializing? && s'.hist.lateInit == s.hist.lateInit)
    && s.subs.Keys <= s'.subs.Keys && s.redis.Keys <= s'.redis.Keys
    && (!a.StartStage? ==> s'.redis == s.redis)
    && |s.readers| <= |s'.readers|
    && (!a.InsideClose? ==> s'.hist.ranged == s.hist.ranged)
    && (!s.lock.WriteLocked? && s'.lock.WriteLocked? ==>
          PassesGuard(s, a) && !s.shutdown && s'.lock == WriteLocked(CloserOf(a), Broadcast(s.handlers)))
    && (s.lock.WriteLocked? && !a.InsideClose? ==> s'.lock == s.lock && s'.results == s.results)
  }

  /** processMessages holds the read lock where it thinks it does. */
  predicate SendsLocked(s: State) {
    s.proc.ConnErrSend? || s.proc.OpErrSend? ==> s.lock.ReadLocked?
  }

  ghost predicate Frame(s: State, a: Step, s': State) {
    Counts(s, a, s') && Forward(s, a, s')
  }

  lemma AcquireFrame(s: State, who: Tid, a: Step)
    requires ClosesConn(a) && s.lock.Free? && who == CloserOf(a)
    requires who.Process? ==> s.proc.ProcCall?
    requires who.ReadPump? ==> s.read.CallClose?
    ensures Frame(s, a, Acquire(s, who))
  {
    if s.state == Closed {} else if s.shutdown {} else {}
  }

  lemma ReadFrame(s: State, x: ReadStep, s': State)
    requires DoRead(s, x) == Some(s')
    ensures Frame(s, ReadPumpStep(x), s')
  {
    match x
    case ReadSetState =>
    case ReadCheck =>
    case ReadGot(m) =>
    case ReadPeerClose =>
    case ReadPanics =>
    case ReadFails(e) =>
    case ReadPut => if s.inq.closed {} else {}
    case ReadClose => AcquireFrame(s, ReadPump, ReadPumpStep(x));
  }

  lemma SelectFrame(s: State, x: SelectStep, s': State)
    requires DoSelect(s, x) == Some(s')
    requires s.proc.Boot? ==> !s.hist.ticker
    ensures Frame(s, SelectLoop(x), s')
  {
    match x
    case MakeTicker =>
    case SeeShutdown =>
    case TakeIn => if s.inq.buf != [] {} else {}
    case TakeOut => if s.outq.buf != [] {} else {}
    case Ping(ok) =>
  }

  lemma InitFrame(s: State, x: InitStep, s': State)
    requires DoInit(s, x) == Some(s') && SendsLocked(s)
    ensures Frame(s, InitStage(x), s')
  {
    match x
    case CallHandler(answer) =>
    case SkipHandler =>
    case EndCalls =>
    case ConnErrChecked =>
    case ConnErrSent => if s.outq.closed {} else {}
    case SendEof => if s.inq.closed {} else {}
    case SetEstablished =>
    case SendAck => if s.outq.closed {} else {}
  }

  lemma ValidateFrame(s: State, calls: Answer, s': State)
    requires DoStart(s, ValidateStart(calls)) == Some(s')
    ensures Frame(s, StartStage(ValidateStart(calls)), s')
  {
    if calls.Panics? || !Accepts(s.proc.id, s.proc.start) {} else {}
  }

  lemma RedisStartFrame(s: State, fields: seq<RP.FieldOutcome>, s': State)
    requires DoStart(s, RedisStart(fields)) == Some(s')
    ensures Frame(s, StartStage(RedisStart(fields)), s')
  {
    if RP.StartTopics(fields).None? {} else {}
  }

  lemma StartFrame(s: State, x: StartStep, s': State)
    requires DoStart(s, x) == Some(s') && SendsLocked(s)
    ensures Frame(s, StartStage(x), s')
  {
    match x
    case CheckEstablished =>
    case Unmarshal =>
    case OpErrChecked(marshals) =>
    case OpErrSent =>
    case CallSubHandler(answer) =>
    case EndSubCalls =>
    case ValidateStart(calls) => ValidateFrame(s, calls, s');
    case RedisStart(fields) => RedisStartFrame(s, fields, s');
    case RedisStartPanics =>
  }

  lemma StopFrame(s: State, x: StopStep, s': State)
    requires DoStop(s, x) == Some(s')
    ensures Frame(s, StopStage(x), s')
  {
    match x
    case LoadStop(calls) =>
    case CallStopHandler(answer) =>
    case RedisStop =>
    case ReaderCheck =>
    case ReaderSet =>
    case EndStopCalls =>
  }

  lemma LeaveFrame(s: State, x: LeaveStep, s': State)
    requires DoLeave(s, x) == Some(s')
    ensures Frame(s, LeaveStage(x), s')
  {
    match x
    case ProcClose => AcquireFrame(s, Process, LeaveStage(x));
    case CallPanicHandler(answer) =>
    case SkipPanicHandler =>
    case EndPanicCalls =>
    case CheckPanicState =>
    case SendPanicEof => if s.inq.closed {} else {}
  }

  lemma UnlockFrame(s: State, res: CloseResult, x: CloseStep)
    requires s.lock.WriteLocked?
    requires s.lock.owner.ReadPump? ==> s.read.InClose?
    requires s.lock.owner.Process? ==> s.proc.ProcIn?
    ensures Frame(s, InsideClose(x), Unlock(s, res))
  {}

  lemma BroadcastFrame(s: State, todo: seq<HandlerKind>, x: CloseStep, s': State)
    requires s.lock.WriteLocked? && TeardownProgress(s) && DoBroadcast(s, todo, x) == Some(s')
    ensures Frame(s, InsideClose(x), s')
  {
    match x
    case CallCloser(answer) =>
      if answer.Panics? {
        UnlockFrame(s, Panicked, x);
      } else if answer.result.Plain? {
        UnlockFrame(s, HandlerFailed, x);
      } else {
      }
    case LastCloser =>
    case RangeBegin =>
    case _ =>
  }

  lemma RangeFrame(s: State, x: CloseStep, s': State)
    requires s.lock.WriteLocked? && s.lock.phase.Ranging? && DoRange(s, s.lock.phase, x) == Some(s')
    ensures Frame(s, InsideClose(x), s')
  {
    match x
    case RangePick(key) =>
    case RangeCheck =>
    case RangeSet =>
    case RangeEnd =>
    case _ =>
  }

  lemma CloseFrame(s: State, x: CloseStep, s': State)
    requires TeardownProgress(s) && DoClose(s, x) == Some(s')
    ensures Frame(s, InsideClose(x), s')
  {
    match s.lock.phase
    case Broadcast(todo) => BroadcastFrame(s, todo, x, s');
    case Ranging(_, _, _, _, _) => RangeFrame(s, x, s');
    case CloseOut =>
    case CloseIn =>
    case CloseSocket => UnlockFrame(s, TornDown(x.ok), x);
  }

  lemma OutFrame(s: State, n: nat, x: OutStep, s': State)
    requires n < |s.outs| && DoOut(s, n, x) == Some(s')
    ensures Frame(s, OutsiderStep(n, x), s')
  {
    match x
    case OutCheck =>
    case OutWrite(ok) =>
    case OutClose => AcquireFrame(s, Outsider(n), OutsiderStep(n, x));
  }

  lemma LocalReaderFrame(s: State, i: nat, x: ReaderStep, s': State)
    requires i < |s.readers| && DoReader(s, i, x) == Some(s') && !x.SelfClose? && !x.SendStep?
    ensures Frame(s, RedisReaderStep(i, x), s')
  {}

  lemma SendFrame(s: State, i: nat, s': State)
    requires i < |s.readers| && DoReader(s, i, SendStep) == Some(s')
    ensures Frame(s, RedisReaderStep(i, SendStep), s')
  {
    if s.outq.closed {} else {}
  }

  lemma ReaderFrame(s: State, i: nat, x: ReaderStep, s': State)
    requires i < |s.readers| && DoReader(s, i, x) == Some(s')
    ensures Frame(s, RedisReaderStep(i, x), s')
  {
    if x.SelfClose? {
      AcquireFrame(s, ReaderThread(i), RedisReaderStep(i, x));
    } else if x.SendStep? {
      SendFrame(s, i, s');
    } else {
      LocalReaderFrame(s, i, x, s');
    }
  }

  lemma EnvFrame(s: State, x: EnvStep, s': State)
    requires DoEnv(s, x) == Some(s')
    ensures Frame(s, EnvironmentStep(x), s')
  {
    match x
    case AddHandler(k) =>
    case SpawnCloser =>
    case OutsideSend =>
  }

  lemma StepFrame(s: State, a: Step, s': State)
    requires Do(s, a) == Some(s') && TeardownProgress(s) && SendsLocked(s) && (s.proc.Boot? ==> !s.hist.ticker)
    ensures Frame(s, a, s')
  {
    match a
    case ReadPumpStep(x) => ReadFrame(s, x, s');
    case SelectLoop(x) => SelectFrame(s, x, s');
    case InitStage(x) => InitFrame(s, x, s');
    case StartStage(x) => StartFrame(s, x, s');
    case StopStage(x) => StopFrame(s, x, s');
    case LeaveStage(x) => LeaveFrame(s, x, s');
    case InsideClose(x) => CloseFrame(s, x, s');
    case OutsiderStep(n, x) => OutFrame(s, n, x, s');
    case RedisReaderStep(i, x) => ReaderFrame(s, i, x, s');
    case EnvironmentStep(x) => EnvFrame(s, x, s');
  }
}

/** What a stop does to the Redis readers while everybody else goes on. */
module Stops {
  import opened Options
  import opened Machine
  import opened Control
  import opened World
  import opened Frames
  import opened Lifecycle
  import opened Blocking
  import RP = RedisProtocol

  /** processMessages is closing the reader it loaded for a stop. */
  predicate Stopping(p: ProcPc) {
    p.StopCheck? || p.StopSet?
  }

  /** That reader is still the one mapped at the ID of the stop. */
  ghost predicate StopTarget(s: State) {
    Stopping(s.proc) ==> s.proc.sub.id in s.redis && s.redis[s.proc.sub.id] == s.proc.j
  }

  lemma StopStepTarget(s: State, x: StopStep, s': State)
    requires StopTarget(s) && DoStop(s, x) == Some(s')
    ensures StopTarget(s')
  {
    match x
    case LoadStop(calls) =>
    case CallStopHandler(answer) =>
    case RedisStop =>
    case ReaderCheck =>
    case ReaderSet =>
    case EndStopCalls =>
  }

  lemma SelectNoStop(s: State, x: SelectStep, s': State)
    requires DoSelect(s, x) == Some(s')
    ensures !Stopping(s'.proc)
  {
    match x
    case MakeTicker =>
    case SeeShutdown =>
    case TakeIn => if s.inq.buf != [] {} else {}
    case TakeOut =>
    case Ping(ok) =>
  }

  lemma InitNoStop(s: State, x: InitStep, s': State)
    requires DoInit(s, x) == Some(s')
    ensures !Stopping(s'.proc)
  {
    match x
    case CallHandler(answer) =>
    case SkipHandler =>
    case EndCalls =>
    case ConnErrChecked =>
    case ConnErrSent =>
    case SendEof =>
    case SetEstablished =>
    case SendAck =>
  }

  lemma StartNoStop(s: State, x: StartStep, s': State)
    requires DoStart(s, x) == Some(s')
    ensures !Stopping(s'.proc)
  {
    match x
    case CheckEstablished =>
    case Unmarshal =>
    case OpErrChecked(marshals) =>
    case OpErrSent =>
    case ValidateStart(calls) => ValidateNoStop(s, calls, s');
    case CallSubHandler(answer) =>
    case RedisStart(fields) => RedisStartNoStop(s, fields, s');
    case RedisStartPanics =>
    case EndSubCalls =>
  }

  lemma ValidateNoStop(s: State, calls: Answer, s': State)
    requires DoStart(s, ValidateStart(calls)) == Some(s')
    ensures !Stopping(s'.proc)
  {
    if calls.Panics? || !Accepts(s.proc.id, s.proc.start) {} else {}
  }

  lemma RedisStartNoStop(s: State, fields: seq<RP.FieldOutcome>, s': State)
    requires DoStart(s, RedisStart(fields)) == Some(s')
    ensures !Stopping(s'.proc)
  {
    if RP.StartTopics(fields).None? {} else {}
  }

  lemma LeaveNoStop(s: State, x: LeaveStep, s': State)
    requires DoLeave(s, x) == Some(s')
    ensures !Stopping(s'.proc)
  {
    match x
    case ProcClose => if s.state == Closed {} else if s.shutdown {} else {}
    case CallPanicHandler(answer) =>
    case SkipPanicHandler =>
    case EndPanicCalls =>
    case CheckPanicState =>
    case SendPanicEof =>
  }

  lemma UnlockNoStop(s: State, res: CloseResult)
    requires s.lock.WriteLocked? && !Stopping(s.proc)
    ensures !Stopping(Unlock(s, res).proc)
  {}

  /** processMessages inside close does not come out of it into a stop. */
  lemma CloseNoStop(s: State, x: CloseStep, s': State)
    requires !Stopping(s.proc) && DoClose(s, x) == Some(s')
    ensures !Stopping(s'.proc)
  {
    match s.lock.phase
    case Broadcast(todo) =>
      match x {
        case CallCloser(answer) =>
          UnlockNoStop(s, Panicked);
          UnlockNoStop(s, HandlerFailed);
        case LastCloser =>
        case RangeBegin =>
        case _ =>
      }
    case Ranging(_, _, _, _, _) =>
      match x {
        case RangePick(key) =>
        case RangeCheck =>
        case RangeSet =>
        case RangeEnd =>
        case _ =>
      }
    case CloseOut => UnlockNoStop(s, Panicked);
    case CloseIn => UnlockNoStop(s, Panicked);
    case CloseSocket => UnlockNoStop(s, TornDown(x.ok));
  }

  /** No step of another goroutine puts processMessages into a stop or takes it out. */
  lemma OthersStepTarget(s: State, a: Step, s': State)
    requires TeardownProgress(s) && StopTarget(s) && s'.redis == s.redis && OthersStep(a) && Do(s, a) == Some(s')
    ensures StopTarget(s')
  {
    if Stopping(s.proc) {
      OthersDoNotDisturb(s, a, s');
    } else if a.InsideClose? {
      CloseNoStop(s, a.c, s');
    } else {
      match a
      case ReadPumpStep(x) => ReadUndisturbed(s, x, s');
      case OutsiderStep(n, x) => OutUndisturbed(s, n, x, s');
      case RedisReaderStep(i, x) => ReaderUndisturbed(s, i, x, s');
      case EnvironmentStep(x) => EnvUndisturbed(s, x, s');
      case _ =>
    }
  }

  lemma TargetKept(s: State, a: Step, s': State)
    requires TeardownProgress(s) && StopTarget(s) && Frame(s, a, s') && Do(s, a) == Some(s')
    ensures StopTarget(s')
  {
    match a
    case SelectLoop(x) => SelectNoStop(s, x, s');
    case InitStage(x) => InitNoStop(s, x, s');
    case StartStage(x) => StartNoStop(s, x, s');
    case StopStage(x) => StopStepTarget(s, x, s');
    case LeaveStage(x) => LeaveNoStop(s, x, s');
    case _ => OthersStepTarget(s, a, s');
  }

  lemma {:induction false} RunTarget(s: State, steps: seq<Step>, t: State)
    requires Invariant(s) && StopTarget(s) && Run(s, steps) == Some(t)
    ensures Invariant(t) && StopTarget(t)
  {
    if steps != [] {
      var init := steps[..|steps| - 1];
      var m := Run(s, init).value;
      RunTarget(s, init, m);
      StepInvariant(m, steps[|steps| - 1], t);
      TargetKept(m, steps[|steps| - 1], t);
    }
  }

  lemma StopTargets(s: State)
    requires Reachable(s)
    ensures Invariant(s) && StopTarget(s)
  {
    var bad, steps :| Run(Start0(bad), steps) == Some(s);
    ControlStarts(bad);
    WorldStarts(bad);
    RunTarget(Start0(bad), steps, s);
  }

  /** What a step of a stop does to the readers. */
  ghost predicate StopEffect(s: State, s': State)
    requires Stopping(s.proc) ==> s.proc.j < |s.readers|
  {
    && s'.redis == s.redis && s'.subs == s.subs && |s'.readers| == |s.readers|
    && (forall i :: 0 <= i < |s.readers| && s'.readers[i] != s.readers[i] ==>
          s.proc.StopSet? && i == s.proc.j && s'.readers[i] == ClosedReader(s.readers[i]))
    && (Stopping(s.proc) && !Stopping(s'.proc) ==> s'.readers[s.proc.j].state == RP.Closed)
  }

  lemma StopEffects(s: State, x: StopStep, s': State)
    requires (Stopping(s.proc) ==> s.proc.j < |s.readers|) && DoStop(s, x) == Some(s')
    ensures StopEffect(s, s')
  {
    match x
    case LoadStop(calls) =>
    case CallStopHandler(answer) =>
    case RedisStop =>
    case ReaderCheck =>
    case ReaderSet =>
    case EndStopCalls =>
  }

  /** The reader being closed exists and belongs to the subscription being stopped. */
  lemma TargetReader(s: State)
    requires Reachable(s) && Stopping(s.proc)
    ensures s.proc.sub.id in s.redis && s.redis[s.proc.sub.id] == s.proc.j < |s.readers|
    ensures s.readers[s.proc.j].sub.id == s.proc.sub.id
  {
    StopTargets(s);
  }

  /** Whatever runs in between, a stop changes no map and no reader but the one mapped at
      the ID being stopped, which it closes; when the Redis handler's stop is done, that
      reader is Closed. */
  lemma StopClosesOnlyItsReader(s: State, a: Step, s': State)
    requires Reachable(s) && Do(s, a) == Some(s') && a.StopStage?
    ensures s'.redis == s.redis && s'.subs == s.subs && |s'.readers| == |s.readers|
    ensures forall i :: 0 <= i < |s.readers| && s'.readers[i] != s.readers[i] ==>
              && s.proc.StopSet? && s.proc.sub.id in s.redis && i == s.redis[s.proc.sub.id]
              && s'.readers[i] == ClosedReader(s.readers[i])
    ensures Stopping(s.proc) && !Stopping(s'.proc) ==>
              && s.proc.sub.id in s.redis && s.redis[s.proc.sub.id] < |s.readers|
              && s.readers[s.redis[s.proc.sub.id]].sub.id == s.proc.sub.id
              && s'.readers[s.redis[s.proc.sub.id]].state == RP.Closed
  {
    if Stopping(s.proc) { TargetReader(s); }
    StopEffects(s, a.e, s');
  }
}

/** What one step of anybody makes of one Redis reader, exactly. */
module ReaderSteps {
  import opened Options
  import opened Machine
  import opened World
  import RP = RedisProtocol

  /** By this step reader.close sets the state of reader i. */
  predicate ClosesReader(s: State, i: nat, a: Step) {
    || (a == InsideClose(RangeSet) && InRange(s) && s.lock.phase.at == RangeStep.Set(i))
    || (a == StopStage(ReaderSet) && s.proc.StopSet? && s.proc.j == i)
  }

  predicate InsideOf(lock: Lock, i: nat) {
    lock.WriteLocked? && lock.owner == ReaderThread(i)
  }

  /** The close made by reader i, at work in s, returns with this step. */
  predicate Leaves(s: State, i: nat, a: Step, s': State) {
    InsideOf(s.lock, i) && a.InsideClose? && !s'.lock.WriteLocked?
  }

  /** Reader i after step a of s, which leads to s'. */
  function ReaderAfter(s: State, a: Step, s': State, i: nat): Reader
    requires i < |s.readers|
  {
    var r := s.readers[i];
    if a.RedisReaderStep? && a.i == i then
      if a.d.SelfClose? then (if s.state == Closed || s.shutdown then GiveUp(r) else r.(pc := SelfIn))
      else if a.d.SendStep? && s.outq.closed then r
      else NextReader(r, a.d, s.state == Closed)
    else if Leaves(s, i, a, s') then GiveUp(r)
    else if ClosesReader(s, i, a) then ClosedReader(r)
    else r
  }

  lemma AcquireReaders(s: State, who: Tid)
    ensures Acquire(s, who).readers ==
              if who.ReaderThread? && who.i < |s.readers| then
                s.readers[who.i := if s.state == Closed || s.shutdown then GiveUp(s.readers[who.i])
                                   else s.readers[who.i].(pc := SelfIn)]
              else s.readers
  {
    if s.state == Closed {} else if s.shutdown {} else {}
  }

  /** Steps of the others outside close and stop touch no reader; one may store a new one. */
  lemma OthersKeepReaders(s: State, a: Step, s': State)
    requires StartStored(s) && Do(s, a) == Some(s')
    requires a.ReadPumpStep? || a.SelectLoop? || a.LeaveStage? || a.OutsiderStep? || a.EnvironmentStep?
    ensures s'.readers == s.readers
  {
    match a
    case ReadPumpStep(x) => if x.ReadClose? { AcquireReaders(s, ReadPump); } else { ReadElsewhere(s, x, s'); }
    case SelectLoop(x) => SelectElsewhere(s, x, s');
    case LeaveStage(x) => if x.ProcClose? { AcquireReaders(s, Process); } else { LeaveElsewhere(s, x, s'); }
    case OutsiderStep(n, x) => if x.OutClose? { AcquireReaders(s, Outsider(n)); } else { OutElsewhere(s, n, x, s'); }
    case EnvironmentStep(x) => EnvKeepsReaders(s, x, s');
    case _ =>
  }

  lemma EnvKeepsReaders(s: State, x: EnvStep, s': State)
    requires DoEnv(s, x) == Some(s')
    ensures s'.readers == s.readers
  {
    match x
    case AddHandler(k) =>
    case SpawnCloser =>
    case OutsideSend =>
  }

  lemma InitKeepsReaders(s: State, x: InitStep, s': State)
    requires StartStored(s) && DoInit(s, x) == Some(s')
    ensures s'.readers == s.readers
  {
    match x
    case ConnErrSent =>
    case SendAck =>
    case _ => InitElsewhere(s, x, s');
  }

  lemma StartReaders(s: State, x: StartStep, s': State)
    requires StartStored(s) && DoStart(s, x) == Some(s')
    ensures s'.readers == s.readers
            || (s.proc.SubStartCalls? && exists topics :: s'.readers == s.readers + [NewReader(s.proc.sub, topics)])
  {
    match x
    case OpErrSent =>
    case ValidateStart(calls) => if calls.Panics? || !Accepts(s.proc.id, s.proc.start) {} else {}
    case RedisStart(fields) => if RP.StartTopics(fields).None? {} else {}
    case _ => StartElsewhere(s, x, s');
  }

  lemma StopReaders(s: State, x: StopStep, s': State)
    requires StartStored(s) && DoStop(s, x) == Some(s')
    ensures s'.readers == if x.ReaderSet? && s.proc.StopSet? && s.proc.j < |s.readers|
                          then s.readers[s.proc.j := ClosedReader(s.readers[s.proc.j])] else s.readers
  {
    if x.ReaderSet? {} else { StopElsewhere(s, x, s'); }
  }

  lemma UnlockReaders(s: State, res: CloseResult)
    requires s.lock.WriteLocked?
    ensures Unlock(s, res).readers ==
              if s.lock.owner.ReaderThread? && s.lock.owner.i < |s.readers|
              then s.readers[s.lock.owner.i := GiveUp(s.readers[s.lock.owner.i])] else s.readers
    ensures !Unlock(s, res).lock.WriteLocked? && Unlock(s, res).hist == s.hist
  {}

  /** A step inside close: the owner leaves, or the Range closes a reader, or neither. */
  ghost predicate CloseReaders(s: State, x: CloseStep, s': State)
    requires s.lock.WriteLocked?
  {
    if !s'.lock.WriteLocked? then
      s'.readers == if s.lock.owner.ReaderThread? && s.lock.owner.i < |s.readers|
                    then s.readers[s.lock.owner.i := GiveUp(s.readers[s.lock.owner.i])] else s.readers
    else if x.RangeSet? && s.lock.phase.Ranging? && s.lock.phase.at.Set? && s.lock.phase.at.j < |s.readers| then
      s'.readers == s.readers[s.lock.phase.at.j := ClosedReader(s.readers[s.lock.phase.at.j])]
    else s'.readers == s.readers
  }

  lemma BroadcastReaders(s: State, todo: seq<HandlerKind>, x: CloseStep, s': State)
    requires s.lock.WriteLocked? && s.lock.phase == Broadcast(todo) && DoBroadcast(s, todo, x) == Some(s')
    ensures CloseReaders(s, x, s') && !x.RangeSet?
  {
    match x
    case CallCloser(answer) =>
      if answer.Panics? { UnlockReaders(s, Panicked); }
      else if answer.result.Plain? { UnlockReaders(s, HandlerFailed); }
      else {}
    case LastCloser =>
    case RangeBegin =>
    case _ =>
  }

  lemma RangeReaders(s: State, x: CloseStep, s': State)
    requires s.lock.WriteLocked? && s.lock.phase.Ranging? && DoRange(s, s.lock.phase, x) == Some(s')
    ensures CloseReaders(s, x, s') && s'.lock.WriteLocked? && (x.RangeSet? ==> s.lock.phase.at.Set?)
  {
    match x
    case RangePick(key) =>
    case RangeCheck =>
    case RangeSet =>
    case RangeEnd =>
    case _ =>
  }

  lemma CloseStepReaders(s: State, x: CloseStep, s': State)
    requires DoClose(s, x) == Some(s')
    ensures s.lock.WriteLocked? && CloseReaders(s, x, s')
    ensures x.RangeSet? ==> InRange(s) && s.lock.phase.at.Set? && s'.lock.WriteLocked?
  {
    match s.lock.phase
    case Broadcast(todo) => BroadcastReaders(s, todo, x, s');
    case Ranging(_, _, _, _, _) => RangeReaders(s, x, s');
    case CloseOut => if s.outq.closed { UnlockReaders(s, Panicked); }
    case CloseIn => if s.inq.closed { UnlockReaders(s, Panicked); }
    case CloseSocket => UnlockReaders(s, TornDown(x.ok));
  }

  lemma OwnReader(s: State, k: nat, x: ReaderStep, s': State)
    requires k < |s.readers| && DoReader(s, k, x) == Some(s')
    ensures s'.readers == s.readers[k := ReaderAfter(s, RedisReaderStep(k, x), s', k)]
  {
    if x.SelfClose? { AcquireReaders(s, ReaderThread(k)); }
    else if x.SendStep? { if s.outq.closed {} else {} }
    else {}
  }

  /** The readers after a step are the readers before, each moved on by ReaderAfter, and
      possibly one new one. */
  lemma ReaderStepped(s: State, a: Step, s': State, i: nat)
    requires StartStored(s) && Do(s, a) == Some(s') && i < |s.readers|
    ensures i < |s'.readers| && s'.readers[i] == ReaderAfter(s, a, s', i)
  {
    match a
    case RedisReaderStep(k, x) => OwnReader(s, k, x, s');
    case InsideClose(x) => CloseStepReaders(s, x, s');
    case StartStage(x) => StartReaders(s, x, s');
    case StopStage(x) => StopReaders(s, x, s');
    case InitStage(x) => InitKeepsReaders(s, x, s');
    case _ => OthersKeepReaders(s, a, s');
  }

  lemma NewReaders(s: State, a: Step, s': State)
    requires StartStored(s) && Do(s, a) == Some(s') && |s'.readers| != |s.readers|
    ensures a.StartStage? && s.proc.SubStartCalls?
    ensures exists topics :: s'.readers == s.readers + [NewReader(s.proc.sub, topics)]
  {
    match a
    case RedisReaderStep(k, x) => OwnReader(s, k, x, s');
    case InsideClose(x) => CloseStepReaders(s, x, s');
    case StartStage(x) => StartReaders(s, x, s');
    case StopStage(x) => StopReaders(s, x, s');
    case InitStage(x) => InitKeepsReaders(s, x, s');
    case _ => OthersKeepReaders(s, a, s');
  }
}

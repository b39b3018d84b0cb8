/** Invariants of the subscriptions and their Redis readers: the two maps agree,
    the failure counter means what it should, messages are delivered in order, and
    what a close handler's Range leaves behind. */
module World {
  import opened Options
  import opened Subscriptions
  import opened Subscribers
  import opened Machine
  import opened Control
  import RP = RedisProtocol

  // ---------------------------------------------------------------------------
  // The two maps
  // ---------------------------------------------------------------------------

  /** Everything stored was accepted, under its own ID. */
  ghost predicate Stored(subs: map<string, Subscription>, origin: map<string, StartBody>) {
    && origin.Keys == subs.Keys
    && forall id :: id in subs ==> Accepts(id, origin[id]) && subs[id] == NewSubscription(id, origin[id])
  }

  /** The Redis handler's map holds the latest reader of each ID, and only IDs of
      stored subscriptions. */
  ghost predicate MapsAgree(subs: map<string, Subscription>, redis: map<string, nat>, readers: seq<Reader>) {
    && redis.Keys <= subs.Keys
    && (forall id :: id in redis ==> redis[id] < |readers| && readers[redis[id]].sub.id == id)
    && (forall i :: 0 <= i < |readers| ==> readers[i].sub.id in redis && i <= redis[readers[i].sub.id])
  }

  // ---------------------------------------------------------------------------
  // One reader
  // ---------------------------------------------------------------------------

  /** The reader is calling Conn.Close because it gave up. */
  predicate CallingClose(pc: ReaderPc) {
    pc.SelfCheck? || pc.SelfWrite? || pc.SelfCall? || pc.SelfIn?
  }

  /** Listening to Redis, or sending what came from it. */
  predicate Listening(pc: ReaderPc) {
    pc.Loop? || pc.Receive? || pc.Waiting? || pc.SendData?
  }

  ghost predicate ReaderOk(r: Reader) {
    && r.errors == RP.ConsecutiveFailures(r.attempts)
    && (r.state == RP.Closed ==> r.wasClosed)
    && (r.wasClosed && !r.reopened ==> r.state == RP.Closed)
    && (r.pc.Launched? ==> r.state != RP.Running && !r.reopened && r.errors == 0)
    && (!r.missed ==>
          && r.errors <= RP.FATAL_FAILURES
          && (r.errors == RP.FATAL_FAILURES ==>
                CallingClose(r.pc) || (r.state == RP.Closed && (r.pc.Top? || r.pc.ReaderDone?))))
    && (Listening(r.pc) && !r.pubSub ==> r.wasClosed)
    && RP.Delivered(r.received) == r.sent + (if r.pc.SendData? then [r.pc.result] else [])
  }

  ghost predicate ReadersOk(readers: seq<Reader>) {
    forall i :: 0 <= i < |readers| ==> ReaderOk(readers[i])
  }

  // ---------------------------------------------------------------------------
  // Delivery
  // ---------------------------------------------------------------------------

  predicate IsFrom(m: OutMsg, i: nat) {
    m.Data? && m.reader == i
  }

  /** The data messages of reader i in a log. */
  function FromReader(put: seq<OutMsg>, i: nat): seq<OutMsg> {
    if put == [] then []
    else
      FromReader(put[..|put| - 1], i)
      + (if IsFrom(put[|put| - 1], i) then [put[|put| - 1]] else [])
  }

  function DataOf(i: nat, id: string, results: seq<int>): seq<OutMsg> {
    seq(|results|, k requires 0 <= k < |results| => Data(i, id, results[k]))
  }

  ghost predicate Delivery(put: seq<OutMsg>, readers: seq<Reader>) {
    && (forall m :: m in put && m.Data? ==> m.reader < |readers|)
    && (forall i :: 0 <= i < |readers| ==>
          FromReader(put, i) == DataOf(i, readers[i].sub.id, readers[i].sent))
  }

  // ---------------------------------------------------------------------------
  // Survivors of a close
  // ---------------------------------------------------------------------------

  /** A later start with the same ID took the reader's place in the map. */
  ghost predicate Displaced(redis: map<string, nat>, readers: seq<Reader>, i: nat)
    requires i < |readers|
  {
    readers[i].sub.id in redis && i < redis[readers[i].sub.id]
  }

  /** Closed, or one of the ways to escape: displaced, or line 63 still to come when
      the Range began and run after the close. */
  ghost predicate Settled(redis: map<string, nat>, readers: seq<Reader>, i: nat, launching: set<nat>)
    requires i < |readers|
  {
    || readers[i].state == RP.Closed
    || Displaced(redis, readers, i)
    || (i in launching && readers[i].reopened)
  }

  /** Every reader of the start set that has yet to run line 63 is in `launching`. */
  ghost predicate Frozen(readers: seq<Reader>, start: RangeStart) {
    && start.count <= |readers|
    && forall i :: 0 <= i < start.count && readers[i].pc.Launched? ==> i in start.launching
  }

  ghost predicate AllSettled(redis: map<string, nat>, readers: seq<Reader>, start: RangeStart) {
    && Frozen(readers, start)
    && forall i :: 0 <= i < start.count ==> Settled(redis, readers, i, start.launching)
  }

  /** Reader i still has to be visited by the Range under way. */
  ghost predicate Pending(readers: seq<Reader>, ph: ClosePhase, i: nat)
    requires ph.Ranging? && i < |readers|
  {
    || (readers[i].sub.id in ph.must && readers[i].sub.id !in ph.visited)
    || (!ph.at.Pick? && ph.at.j == i)
  }

  ghost predicate RangeProgress(redis: map<string, nat>, readers: seq<Reader>, ph: ClosePhase)
    requires ph.Ranging?
  {
    && Frozen(readers, ph.start)
    && (forall i :: 0 <= i < ph.start.count ==>
          Settled(redis, readers, i, ph.start.launching) || Pending(readers, ph, i))
  }

  predicate InRange(s: State) {
    s.lock.WriteLocked? && s.lock.phase.Ranging?
  }

  /** A reader that is itself the closer was stored, and ran line 63, before any Range
      of that close. */
  ghost predicate CloserRan(lock: Lock, ranged: Option<RangeStart>) {
    lock.WriteLocked? && lock.owner.ReaderThread? ==>
      && (ranged.Some? ==> lock.owner.i < ranged.value.count && lock.owner.i !in ranged.value.launching)
      && (lock.phase.Ranging? ==>
            lock.owner.i < lock.phase.start.count && lock.owner.i !in lock.phase.start.launching)
  }

  ghost predicate Survivors(s: State) {
    && (s.hist.ranged.Some? ==> s.shutdown && AllSettled(s.redis, s.readers, s.hist.ranged.value))
    && (InRange(s) ==> RangeProgress(s.redis, s.readers, s.lock.phase))
    && CloserRan(s.lock, s.hist.ranged)
  }

  ghost predicate Consistent(s: State) {
    && Stored(s.subs, s.origin)
    && MapsAgree(s.subs, s.redis, s.readers)
    && StartStored(s)
    && ReadersOk(s.readers)
    && Delivery(s.outq.put, s.readers)
    && Survivors(s)
  }

  // ---------------------------------------------------------------------------
  // Single-reader steps
  // ---------------------------------------------------------------------------

  /** What any step may do to a reader. */
  ghost predicate Evolves(r: Reader, r': Reader) {
    && r'.sub == r.sub && r'.topics == r.topics
    && (ReaderOk(r) ==> ReaderOk(r'))
    && (r.state == RP.Closed ==> r'.state == RP.Closed || (r.pc.Launched? && r'.reopened))
    && (r.reopened ==> r'.reopened || r.pc.Launched?)
    && (r'.pc.Launched? ==> r.pc.Launched?)
  }

  /** One more attempt, counted right. */
  lemma AttemptEvolves(r: Reader, r': Reader)
    requires r.pc.Dial? || r.pc.Subscribe?
    requires r' == r.(topicsLen := r'.topicsLen, errors := r'.errors, pubSub := r'.pubSub, pc := r'.pc,
                      attempts := r'.attempts)
    requires ReaderOk(r) ==> r'.errors == RP.ConsecutiveFailures(r'.attempts) <= r.errors + 1
    requires r'.pc.Loop? || r'.pc.Top? || r'.pc.SelfCheck?
    requires r'.pc.Loop? ==> r'.pubSub && r'.errors == 0
    requires r'.pc.Top? ==> r'.errors == r.errors || !RP.GivesUp(r'.errors)
    ensures Evolves(r, r')
  {}

  lemma DialFailedEvolves(r: Reader)
    requires r.pc.Dial?
    ensures Evolves(r, NextReader(r, DialStep(false), false))
  {
    RP.FailureCounterStep(r.attempts, RP.DialFailed);
    AttemptEvolves(r, NextReader(r, DialStep(false), false));
  }

  lemma SubscribeOkEvolves(r: Reader)
    requires r.pc.Subscribe?
    ensures Evolves(r, Subscribed(r, true))
  {
    RP.FailureCounterStep(r.attempts, RP.SubscribeOk);
    AttemptEvolves(r, Subscribed(r, true));
  }

  lemma SubscribeFailedEvolves(r: Reader)
    requires r.pc.Subscribe?
    ensures Evolves(r, Subscribed(r, false))
  {
    RP.FailureCounterStep(r.attempts, RP.SubscribeFailed);
    AttemptEvolves(r, Subscribed(r, false));
  }

  lemma MessageEvolves(r: Reader, m: RP.RedisMessage)
    requires r.pc.Waiting?
    ensures Evolves(r, Received(r, RP.Incoming(m)))
  {
    RP.DeliveredStep(r.received, m);
    if m.marshals {} else {}
  }

  lemma OtherEventEvolves(r: Reader, e: RP.RedisEvent)
    requires r.pc.Waiting? && !e.Incoming?
    ensures Evolves(r, Received(r, e))
  {
    if e.Failure? {} else {}
  }

  lemma SentEvolves(r: Reader)
    requires r.pc.SendData?
    ensures Evolves(r, NextReader(r, SendStep, false))
  {}

  lemma NextReaderEvolves(r: Reader, a: ReaderStep, connClosed: bool)
    requires ReaderAt(r, a)
    ensures Evolves(r, NextReader(r, a, connClosed))
    ensures NextReader(r, a, connClosed).sent == if a.SendStep? then r.sent + [r.pc.result] else r.sent
  {
    match a
    case DialStep(ok) => if !ok { DialFailedEvolves(r); } else {}
    case SubscribeStep(ok) => if ok { SubscribeOkEvolves(r); } else { SubscribeFailedEvolves(r); }
    case ReceiveStep(e) =>
      if e.Incoming? { MessageEvolves(r, e.message); } else { OtherEventEvolves(r, e); }
    case SendStep => SentEvolves(r);
    case _ => MoveEvolves(r, a, connClosed);
  }

  /** Steps that only move the reader, or set its state. */
  lemma MoveEvolves(r: Reader, a: ReaderStep, connClosed: bool)
    requires ReaderAt(r, a) && !a.DialStep? && !a.SubscribeStep? && !a.ReceiveStep? && !a.SendStep?
    ensures Evolves(r, NextReader(r, a, connClosed)) && NextReader(r, a, connClosed).sent == r.sent
  {
    match a
    case SetRunning =>
    case TopCheck =>
    case LoopCheck =>
    case LoadConn => if r.pubSub {} else {}
    case SelfCheckStep => if connClosed {} else {}
    case SelfWriteStep(ok) => if ok {} else {}
    case SelfClose =>
    case _ =>
  }

  lemma ClosedReaderEvolves(r: Reader)
    ensures Evolves(r, ClosedReader(r)) && ClosedReader(r).sent == r.sent
  {}

  lemma CloseCallEvolves(r: Reader)
    ensures r.pc.SelfIn? || r.pc.SelfCall? ==> Evolves(r, GiveUp(r)) && GiveUp(r).sent == r.sent
    ensures r.pc.SelfCall? ==> Evolves(r, r.(pc := SelfIn)) && r.(pc := SelfIn).sent == r.sent
  {}

  // ---------------------------------------------------------------------------
  // Changes of the whole world
  // ---------------------------------------------------------------------------

  lemma FromReaderSnoc(put: seq<OutMsg>, m: OutMsg, i: nat)
    ensures FromReader(put + [m], i) == FromReader(put, i) + (if IsFrom(m, i) then [m] else [])
  {
    assert (put + [m])[..|put|] == put;
  }

  /** Another goroutine moves: nothing the readers depend on changes. */
  ghost predicate Elsewhere(s: State, t: State) {
    && t.subs == s.subs && t.origin == s.origin && t.redis == s.redis && t.readers == s.readers
    && t.outq.put == s.outq.put && t.hist.ranged == s.hist.ranged
    && (s.shutdown ==> t.shutdown)
    && (t.proc.SubStartCalls? ==> t.proc.sub.id in t.subs)
    && (t.lock == s.lock || (!InRange(t) && CloserRan(t.lock, t.hist.ranged)))
  }

  lemma ElsewhereKeeps(s: State, t: State)
    requires Consistent(s) && Elsewhere(s, t)
    ensures Consistent(t)
  {}

  lemma EvolvedMaps(subs: map<string, Subscription>, redis: map<string, nat>, readers: seq<Reader>, i: nat, r: Reader)
    requires i < |readers| && Evolves(readers[i], r)
    ensures MapsAgree(subs, redis, readers) ==> MapsAgree(subs, redis, readers[i := r])
    ensures ReadersOk(readers) ==> ReadersOk(readers[i := r])
  {}

  lemma EvolvedSettled(redis: map<string, nat>, readers: seq<Reader>, i: nat, r: Reader, start: RangeStart, k: nat)
    requires i < |readers| && Evolves(readers[i], r) && Frozen(readers, start) && ReaderOk(readers[i])
    requires k < start.count && Settled(redis, readers, k, start.launching)
    ensures Settled(redis, readers[i := r], k, start.launching)
  {}

  lemma EvolvedSurvivors(s: State, i: nat, r: Reader)
    requires Survivors(s) && ReadersOk(s.readers)
    requires i < |s.readers| && Evolves(s.readers[i], r)
    ensures s.hist.ranged.Some? ==> AllSettled(s.redis, s.readers[i := r], s.hist.ranged.value)
    ensures InRange(s) ==> RangeProgress(s.redis, s.readers[i := r], s.lock.phase)
  {
    var after := s.readers[i := r];
    if s.hist.ranged.Some? {
      var start := s.hist.ranged.value;
      forall k | 0 <= k < start.count ensures Settled(s.redis, after, k, start.launching) {
        EvolvedSettled(s.redis, s.readers, i, r, start, k);
      }
    }
    if InRange(s) {
      var ph := s.lock.phase;
      forall k | 0 <= k < ph.start.count && !Pending(after, ph, k)
        ensures Settled(s.redis, after, k, ph.start.launching)
      {
        assert !Pending(s.readers, ph, k);
        EvolvedSettled(s.redis, s.readers, i, r, ph.start, k);
      }
    }
  }

  lemma EvolvedDelivery(put: seq<OutMsg>, readers: seq<Reader>, i: nat, r: Reader)
    requires i < |readers| && r.sub == readers[i].sub && r.sent == readers[i].sent && Delivery(put, readers)
    ensures Delivery(put, readers[i := r])
  {}

  /** Reader i evolves in place. */
  lemma ReaderKeeps(s: State, i: nat, r: Reader)
    requires Consistent(s) && i < |s.readers| && Evolves(s.readers[i], r) && r.sent == s.readers[i].sent
    ensures Consistent(s.(readers := s.readers[i := r]))
  {
    EvolvedMaps(s.subs, s.redis, s.readers, i, r);
    EvolvedDelivery(s.outq.put, s.readers, i, r);
    EvolvedSurvivors(s, i, r);
  }

  lemma OtherDelivery(put: seq<OutMsg>, readers: seq<Reader>, m: OutMsg)
    requires Delivery(put, readers) && !m.Data?
    ensures Delivery(put + [m], readers)
  {
    forall i | 0 <= i < |readers| ensures FromReader(put + [m], i) == FromReader(put, i) {
      FromReaderSnoc(put, m, i);
    }
  }

  /** A message that no reader sent is enqueued. */
  lemma OtherSendKeeps(s: State, m: OutMsg)
    requires Consistent(s) && !m.Data? && s.outq.CanSend()
    ensures Consistent(s.(outq := s.outq.Send(m)))
  {
    OtherDelivery(s.outq.put, s.readers, m);
  }

  /** Reader i enqueues its next data message. */
  lemma NewDelivery(put: seq<OutMsg>, readers: seq<Reader>, i: nat, r: Reader, x: int)
    requires i < |readers| && Delivery(put, readers)
    requires r.sub == readers[i].sub && r.sent == readers[i].sent + [x]
    ensures Delivery(put + [Data(i, r.sub.id, x)], readers[i := r])
  {
    var m := Data(i, r.sub.id, x);
    forall k | 0 <= k < |readers|
      ensures FromReader(put + [m], k) == FromReader(put, k) + (if k == i then [m] else [])
    {
      FromReaderSnoc(put, m, k);
    }
    assert DataOf(i, r.sub.id, r.sent) == DataOf(i, r.sub.id, readers[i].sent) + [m];
  }

  lemma DataKeeps(s: State, i: nat, r: Reader, x: int)
    requires Consistent(s) && i < |s.readers| && s.outq.CanSend()
    requires Evolves(s.readers[i], r) && r.sent == s.readers[i].sent + [x]
    ensures Consistent(s.(readers := s.readers[i := r], outq := s.outq.Send(Data(i, r.sub.id, x))))
  {
    NewDelivery(s.outq.put, s.readers, i, r, x);
    EvolvedMaps(s.subs, s.redis, s.readers, i, r);
    EvolvedSurvivors(s, i, r);
  }

  // A reader stored under its ID takes the place of an earlier one with that ID.
  lemma NewMaps(subs: map<string, Subscription>, redis: map<string, nat>, readers: seq<Reader>, r: Reader)
    requires MapsAgree(subs, redis, readers) && r.sub.id in subs
    ensures MapsAgree(subs, redis[r.sub.id := |readers|], readers + [r])
  {}

  lemma NewReadersOk(readers: seq<Reader>, sub: Subscription, topics: seq<Topic>)
    requires ReadersOk(readers)
    ensures ReadersOk(readers + [NewReader(sub, topics)])
  {
    assert ReaderOk(NewReader(sub, topics));
  }

  lemma NewSurvivors(s: State, r: Reader)
    requires Survivors(s) && MapsAgree(s.subs, s.redis, s.readers)
    ensures s.hist.ranged.Some? ==>
              AllSettled(s.redis[r.sub.id := |s.readers|], s.readers + [r], s.hist.ranged.value)
    ensures InRange(s) ==> RangeProgress(s.redis[r.sub.id := |s.readers|], s.readers + [r], s.lock.phase)
  {
    var redis, readers := s.redis[r.sub.id := |s.readers|], s.readers + [r];
    assert forall k, l :: 0 <= k < |s.readers| && Settled(s.redis, s.readers, k, l) ==> Settled(redis, readers, k, l);
    if InRange(s) {
      assert forall k :: 0 <= k < |s.readers| && Pending(s.readers, s.lock.phase, k) ==>
                           Pending(readers, s.lock.phase, k);
    }
  }

  lemma {:induction false} NothingFrom(put: seq<OutMsg>, i: nat)
    requires forall m :: m in put ==> !IsFrom(m, i)
    ensures FromReader(put, i) == []
  {
    if put != [] { NothingFrom(put[..|put| - 1], i); }
  }

  lemma NewReaderDelivery(put: seq<OutMsg>, readers: seq<Reader>, r: Reader)
    requires Delivery(put, readers) && r.sent == []
    ensures Delivery(put, readers + [r])
  {
    NothingFrom(put, |readers|);
  }

  lemma StoreReaderKeeps(s: State, sub: Subscription, topics: seq<Topic>)
    requires Consistent(s) && sub.id in s.subs
    ensures Consistent(s.(redis := s.redis[sub.id := |s.readers|], readers := s.readers + [NewReader(sub, topics)]))
  {
    var r := NewReader(sub, topics);
    NewMaps(s.subs, s.redis, s.readers, r);
    NewReadersOk(s.readers, sub, topics);
    NewReaderDelivery(s.outq.put, s.readers, r);
    NewSurvivors(s, r);
  }

  // ---------------------------------------------------------------------------
  // Every step keeps the world
  // ---------------------------------------------------------------------------

  /** The subscription being started is stored. */
  ghost predicate StartStored(s: State) {
    s.proc.SubStartCalls? ==> s.proc.sub.id in s.subs
  }

  lemma ReadElsewhere(s: State, a: ReadStep, s': State)
    requires StartStored(s) && DoRead(s, a) == Some(s') && !a.ReadClose?
    ensures Elsewhere(s, s')
  {
    match a
    case ReadSetState =>
    case ReadCheck =>
    case ReadGot(m) =>
    case ReadPeerClose =>
    case ReadPanics =>
    case ReadFails(e) =>
    case ReadPut =>
    case ReadClose =>
  }

  lemma SelectElsewhere(s: State, a: SelectStep, s': State)
    requires StartStored(s) && DoSelect(s, a) == Some(s')
    ensures Elsewhere(s, s')
  {
    match a
    case MakeTicker =>
    case SeeShutdown =>
    case TakeIn =>
    case TakeOut =>
    case Ping(ok) =>
  }

  lemma InitElsewhere(s: State, a: InitStep, s': State)
    requires StartStored(s) && DoInit(s, a) == Some(s') && !a.ConnErrSent? && !a.SendAck?
    ensures Elsewhere(s, s')
  {
    match a
    case CallHandler(answer) =>
    case SkipHandler =>
    case EndCalls =>
    case ConnErrChecked =>
    case SendEof =>
    case SetEstablished =>
    case _ =>
  }

  lemma StartElsewhere(s: State, a: StartStep, s': State)
    requires StartStored(s) && DoStart(s, a) == Some(s')
    requires !a.OpErrSent? && !a.ValidateStart? && !a.RedisStart?
    ensures Elsewhere(s, s')
  {
    match a
    case CheckEstablished =>
    case Unmarshal =>
    case OpErrChecked(marshals) =>
    case CallSubHandler(answer) =>
    case RedisStartPanics =>
    case EndSubCalls =>
    case _ =>
  }

  lemma StopElsewhere(s: State, a: StopStep, s': State)
    requires StartStored(s) && DoStop(s, a) == Some(s') && !a.ReaderSet?
    ensures Elsewhere(s, s')
  {
    match a
    case LoadStop(calls) =>
    case CallStopHandler(answer) =>
    case RedisStop =>
    case ReaderCheck =>
    case ReaderSet =>
    case EndStopCalls =>
  }

  lemma LeaveElsewhere(s: State, a: LeaveStep, s': State)
    requires StartStored(s) && DoLeave(s, a) == Some(s') && !a.ProcClose?
    ensures Elsewhere(s, s')
  {
    match a
    case CallPanicHandler(answer) =>
    case SkipPanicHandler =>
    case EndPanicCalls =>
    case CheckPanicState =>
    case SendPanicEof =>
    case ProcClose =>
  }

  lemma OutElsewhere(s: State, n: nat, a: OutStep, s': State)
    requires StartStored(s) && n < |s.outs| && DoOut(s, n, a) == Some(s') && !a.OutClose?
    ensures Elsewhere(s, s')
  {
    match a
    case OutCheck =>
    case OutWrite(ok) =>
    case OutClose =>
  }

  /** A message of processMessages or of an outside caller, then a move elsewhere. */
  lemma SendWorld(s: State, m: OutMsg, t: State)
    requires Consistent(s) && !m.Data? && (s.outq.closed || s.outq.CanSend())
    requires Elsewhere(s.(outq := SendUnlessClosed(s.outq, m)), t)
    ensures Consistent(t)
  {
    if s.outq.closed {
      ElsewhereKeeps(s, t);
    } else {
      OtherSendKeeps(s, m);
      ElsewhereKeeps(s.(outq := s.outq.Send(m)), t);
    }
  }

  lemma InitSendElsewhere(s: State, a: InitStep, m: OutMsg, s': State)
    requires DoInit(s, a) == Some(s') && ((a.ConnErrSent? && m == ConnectionError) || (a.SendAck? && m == Ack))
    ensures !m.Data? && (s.outq.closed || s.outq.CanSend())
    ensures Elsewhere(s.(outq := SendUnlessClosed(s.outq, m)), s')
  {
    match a
    case ConnErrSent =>
    case SendAck =>
    case _ =>
  }

  lemma InitWorld(s: State, a: InitStep, s': State)
    requires Consistent(s) && DoInit(s, a) == Some(s')
    ensures Consistent(s')
  {
    match a
    case ConnErrSent => InitSendElsewhere(s, a, ConnectionError, s'); SendWorld(s, ConnectionError, s');
    case SendAck => InitSendElsewhere(s, a, Ack, s'); SendWorld(s, Ack, s');
    case _ => InitElsewhere(s, a, s'); ElsewhereKeeps(s, s');
  }

  lemma NewStored(subs: map<string, Subscription>, origin: map<string, StartBody>, id: string, start: StartBody)
    requires Stored(subs, origin) && Accepts(id, start)
    ensures Stored(subs[id := NewSubscription(id, start)], origin[id := start])
  {}

  lemma StoreWorld(s: State, id: string, start: StartBody, p: ProcPc)
    requires Consistent(s) && Accepts(id, start) && (p.SubStartCalls? ==> p.sub.id == id)
    ensures Consistent(s.(subs := s.subs[id := NewSubscription(id, start)], origin := s.origin[id := start], proc := p))
  {
    NewStored(s.subs, s.origin, id, start);
    assert MapsAgree(s.subs[id := NewSubscription(id, start)], s.redis, s.readers);
  }

  lemma RefusedElsewhere(s: State, calls: Answer, s': State)
    requires DoStart(s, ValidateStart(calls)) == Some(s')
    requires calls.Panics? || !Accepts(s.proc.id, s.proc.start)
    ensures Elsewhere(s, s')
  {}

  lemma ValidateWorld(s: State, calls: Answer, s': State)
    requires Consistent(s) && DoStart(s, ValidateStart(calls)) == Some(s')
    ensures Consistent(s')
  {
    if calls.Panics? || !Accepts(s.proc.id, s.proc.start) {
      RefusedElsewhere(s, calls, s');
      ElsewhereKeeps(s, s');
    } else {
      StoreWorld(s, s.proc.id, s.proc.start, s'.proc);
    }
  }

  lemma FailedStartElsewhere(s: State, fields: seq<RP.FieldOutcome>, s': State)
    requires StartStored(s) && DoStart(s, RedisStart(fields)) == Some(s') && RP.StartTopics(fields).None?
    ensures Elsewhere(s, s')
  {}

  lemma RedisStartWorld(s: State, fields: seq<RP.FieldOutcome>, s': State)
    requires Consistent(s) && DoStart(s, RedisStart(fields)) == Some(s')
    ensures Consistent(s')
  {
    if RP.StartTopics(fields).None? {
      FailedStartElsewhere(s, fields, s');
      ElsewhereKeeps(s, s');
    } else {
      StoreReaderKeeps(s, s.proc.sub, RP.StartTopics(fields).value);
      ElsewhereKeeps(s.(redis := s'.redis, readers := s'.readers), s');
    }
  }

  lemma StartWorld(s: State, a: StartStep, s': State)
    requires Consistent(s) && DoStart(s, a) == Some(s')
    ensures Consistent(s')
  {
    match a
    case OpErrSent => SendWorld(s, OperationErrors(s.proc.id), s');
    case ValidateStart(calls) => ValidateWorld(s, calls, s');
    case RedisStart(fields) => RedisStartWorld(s, fields, s');
    case _ => StartElsewhere(s, a, s'); ElsewhereKeeps(s, s');
  }

  lemma StopWorld(s: State, a: StopStep, s': State)
    requires Consistent(s) && DoStop(s, a) == Some(s')
    ensures Consistent(s')
  {
    if a.ReaderSet? {
      ClosedReaderEvolves(s.readers[s.proc.j]);
      ReaderKeeps(s, s.proc.j, ClosedReader(s.readers[s.proc.j]));
      ElsewhereKeeps(s.(readers := s'.readers), s');
    } else {
      StopElsewhere(s, a, s');
      ElsewhereKeeps(s, s');
    }
  }

  lemma EnvWorld(s: State, a: EnvStep, s': State)
    requires Consistent(s) && DoEnv(s, a) == Some(s')
    ensures Consistent(s')
  {
    match a
    case AddHandler(k) => ElsewhereKeeps(s, s');
    case SpawnCloser => ElsewhereKeeps(s, s');
    case OutsideSend => SendWorld(s, Outside, s');
  }

  lemma LocalReaderWorld(s: State, i: nat, a: ReaderStep, s': State)
    requires Consistent(s) && i < |s.readers| && DoReader(s, i, a) == Some(s') && !a.SelfClose? && !a.SendStep?
    ensures Consistent(s')
  {
    NextReaderEvolves(s.readers[i], a, s.state == Closed);
    ReaderKeeps(s, i, s'.readers[i]);
    ElsewhereKeeps(s.(readers := s'.readers), s');
  }

  lemma ReaderWorld(s: State, i: nat, a: ReaderStep, s': State)
    requires Consistent(s) && i < |s.readers| && DoReader(s, i, a) == Some(s') && !a.SelfClose?
    ensures Consistent(s')
  {
    if !a.SendStep? {
      LocalReaderWorld(s, i, a, s');
    } else if s.outq.closed {
      ElsewhereKeeps(s, s');
    } else {
      NextReaderEvolves(s.readers[i], a, false);
      DataKeeps(s, i, s'.readers[i], s.readers[i].pc.result);
    }
  }

  // ---------------------------------------------------------------------------
  // close
  // ---------------------------------------------------------------------------

  /** `who` leaves or enters close: of the readers, only `who` itself changes. */
  ghost predicate OnlyCloser(s: State, who: Tid, t: State) {
    if who.ReaderThread? && who.i < |s.readers| then
      && |t.readers| == |s.readers|
      && t.readers == s.readers[who.i := t.readers[who.i]]
      && Evolves(s.readers[who.i], t.readers[who.i]) && t.readers[who.i].sent == s.readers[who.i].sent
      && Elsewhere(s.(readers := t.readers), t)
    else Elsewhere(s, t)
  }

  lemma OnlyCloserKeeps(s: State, who: Tid, t: State)
    requires Consistent(s) && OnlyCloser(s, who, t)
    ensures Consistent(t)
  {
    if who.ReaderThread? && who.i < |s.readers| {
      ReaderKeeps(s, who.i, t.readers[who.i]);
      ElsewhereKeeps(s.(readers := t.readers), t);
    } else {
      ElsewhereKeeps(s, t);
    }
  }

  /** A closing reader is at its own call of close. */
  ghost predicate AtClose(s: State, who: Tid) {
    who.ReaderThread? && who.i < |s.readers| ==> s.readers[who.i].pc.SelfIn? || s.readers[who.i].pc.SelfCall?
  }

  lemma ReturnedOnly(s: State, who: Tid, res: CloseResult)
    requires StartStored(s) && AtClose(s, who)
    ensures OnlyCloser(s, who, Returned(s, who, res))
  {
    if who.ReaderThread? && who.i < |s.readers| { CloseCallEvolves(s.readers[who.i]); } else {}
  }

  lemma EnteredOnly(s: State, who: Tid)
    requires StartStored(s)
    requires who.ReaderThread? && who.i < |s.readers| ==> s.readers[who.i].pc.SelfCall?
    ensures OnlyCloser(s, who, Entered(s, who))
  {
    if who.ReaderThread? && who.i < |s.readers| { CloseCallEvolves(s.readers[who.i]); } else {}
  }

  lemma AcquireFirst(s: State, who: Tid)
    requires Consistent(s) && s.lock.Free? && s.state != Closed && !s.shutdown
    requires who.ReaderThread? && who.i < |s.readers| ==> s.readers[who.i].pc.SelfCall?
    ensures Consistent(Acquire(s, who))
  {
    var t := s.(state := Closed, shutdown := true, lock := WriteLocked(who, Broadcast(s.handlers)),
                hist := s.hist.(passes := s.hist.passes + 1));
    ElsewhereKeeps(s, t);
    EnteredOnly(t, who);
    OnlyCloserKeeps(t, who, Entered(t, who));
  }

  lemma AcquireWorld(s: State, who: Tid)
    requires Consistent(s) && s.lock.Free?
    requires who.ReaderThread? && who.i < |s.readers| ==> s.readers[who.i].pc.SelfCall?
    ensures Consistent(Acquire(s, who))
  {
    if s.state == Closed {
      ReturnedOnly(s, who, Refused);
      OnlyCloserKeeps(s, who, Acquire(s, who));
    } else if s.shutdown {
      var t := s.(state := Closed, hist := s.hist.(passes := s.hist.passes + 1));
      ElsewhereKeeps(s, t);
      ReturnedOnly(t, who, Panicked);
      OnlyCloserKeeps(t, who, Acquire(s, who));
    } else {
      AcquireFirst(s, who);
    }
  }

  lemma FreeWorld(s: State)
    requires Consistent(s)
    ensures Consistent(s.(lock := Free))
  {
    ElsewhereKeeps(s, s.(lock := Free));
  }

  lemma UnlockWorld(s: State, res: CloseResult)
    requires Consistent(s) && s.lock.WriteLocked? && OwnerInside(s, s.lock.owner)
    ensures Consistent(Unlock(s, res))
  {
    FreeWorld(s);
    ReturnedOnly(s.(lock := Free), s.lock.owner, res);
    OnlyCloserKeeps(s.(lock := Free), s.lock.owner, Unlock(s, res));
  }

  lemma PhaseWorld(s: State, phase: ClosePhase)
    requires Consistent(s) && s.lock.WriteLocked? && !phase.Ranging?
    ensures Consistent(At(s, phase))
  {
    ElsewhereKeeps(s, At(s, phase));
  }

  lemma RangeBegins(s: State, todo: seq<HandlerKind>)
    requires Consistent(s) && s.lock.WriteLocked? && OwnerInside(s, s.lock.owner)
    ensures Consistent(At(s, Ranging(todo, RangeStart(|s.readers|, Launching(s.readers)), s.redis.Keys, {}, Pick)))
  {}

  lemma BroadcastWorld(s: State, todo: seq<HandlerKind>, a: CloseStep, s': State)
    requires Consistent(s) && s.lock.WriteLocked? && s.lock.phase == Broadcast(todo) && OwnerInside(s, s.lock.owner)
    requires DoBroadcast(s, todo, a) == Some(s')
    ensures Consistent(s')
  {
    match a
    case CallCloser(answer) =>
      if answer.Panics? {
        UnlockWorld(s, Panicked);
      } else if answer.result.Plain? {
        UnlockWorld(s, HandlerFailed);
      } else {
        PhaseWorld(s, s'.lock.phase);
      }
    case LastCloser => PhaseWorld(s, s'.lock.phase);
    case RangeBegin => RangeBegins(s, todo[1..]);
    case _ =>
  }

  lemma RangeMoves(s: State, ph: ClosePhase)
    requires Consistent(s) && InRange(s) && ph.Ranging? && ph.start == s.lock.phase.start
    requires RangeProgress(s.redis, s.readers, ph)
    ensures Consistent(At(s, ph))
  {}

  // What the three steps of a Range do to the readers still pending.

  lemma PickProgress(subs: map<string, Subscription>, redis: map<string, nat>, readers: seq<Reader>,
                     ph: ClosePhase, key: string)
    requires ph.Ranging? && ph.at.Pick? && RangeProgress(redis, readers, ph)
    requires MapsAgree(subs, redis, readers) && key in redis
    ensures RangeProgress(redis, readers, ph.(visited := ph.visited + {key}, at := Check(redis[key])))
  {}

  lemma CheckProgress(redis: map<string, nat>, readers: seq<Reader>, ph: ClosePhase)
    requires ph.Ranging? && ph.at.Check? && ph.at.j < |readers| && RangeProgress(redis, readers, ph)
    ensures RangeProgress(redis, readers,
                          ph.(at := if readers[ph.at.j].state == RP.Closed then Pick else Set(ph.at.j)))
  {}

  lemma SetProgress(redis: map<string, nat>, readers: seq<Reader>, ph: ClosePhase)
    requires ph.Ranging? && ph.at.Set? && ph.at.j < |readers| && RangeProgress(redis, readers, ph)
    requires readers[ph.at.j].state == RP.Closed
    ensures RangeProgress(redis, readers, ph.(at := Pick))
  {}

  lemma RangePickWorld(s: State, key: string, s': State)
    requires Consistent(s) && InRange(s) && DoRange(s, s.lock.phase, RangePick(key)) == Some(s')
    ensures Consistent(s')
  {
    PickProgress(s.subs, s.redis, s.readers, s.lock.phase, key);
    RangeMoves(s, s'.lock.phase);
  }

  lemma RangeCheckWorld(s: State, s': State)
    requires Consistent(s) && InRange(s) && DoRange(s, s.lock.phase, RangeCheck) == Some(s')
    ensures Consistent(s')
  {
    CheckProgress(s.redis, s.readers, s.lock.phase);
    RangeMoves(s, s'.lock.phase);
  }

  lemma CloseAtRange(s: State, j: nat)
    requires Consistent(s) && j < |s.readers|
    ensures Consistent(s.(readers := s.readers[j := ClosedReader(s.readers[j])]))
  {
    ClosedReaderEvolves(s.readers[j]);
    ReaderKeeps(s, j, ClosedReader(s.readers[j]));
  }

  lemma RangeSetWorld(s: State, s': State)
    requires Consistent(s) && InRange(s) && DoRange(s, s.lock.phase, RangeSet) == Some(s')
    ensures Consistent(s')
  {
    CloseAtRange(s, s.lock.phase.at.j);
    SetProgress(s.redis, s'.readers, s.lock.phase);
    RangeMoves(s.(readers := s'.readers), s'.lock.phase);
  }

  lemma RangeWorld(s: State, a: CloseStep, s': State)
    requires Consistent(s) && InRange(s) && s.shutdown
    requires DoRange(s, s.lock.phase, a) == Some(s')
    ensures Consistent(s')
  {
    match a
    case RangePick(key) => RangePickWorld(s, key, s');
    case RangeCheck => RangeCheckWorld(s, s');
    case RangeSet => RangeSetWorld(s, s');
    case RangeEnd =>
    case _ =>
  }

  lemma QueueCloseElsewhere(s: State, a: CloseStep, s': State)
    requires StartStored(s) && TeardownProgress(s) && DoClose(s, a) == Some(s')
    requires s.lock.WriteLocked? && (s.lock.phase.CloseOut? || s.lock.phase.CloseIn?)
    requires CloserRan(s.lock, s.hist.ranged)
    ensures Elsewhere(s, s')
  {
    if s.lock.phase.CloseOut? {} else {}
  }

  lemma CloseWorld(s: State, a: CloseStep, s': State)
    requires Consistent(s) && TeardownProgress(s) && DoClose(s, a) == Some(s')
    ensures Consistent(s')
  {
    match s.lock.phase
    case Broadcast(todo) => BroadcastWorld(s, todo, a, s');
    case Ranging(_, _, _, _, _) => RangeWorld(s, a, s');
    case CloseOut => QueueCloseElsewhere(s, a, s'); ElsewhereKeeps(s, s');
    case CloseIn => QueueCloseElsewhere(s, a, s'); ElsewhereKeeps(s, s');
    case CloseSocket => UnlockWorld(s, TornDown(a.ok));
  }

  // ---------------------------------------------------------------------------
  // The induction
  // ---------------------------------------------------------------------------

  lemma WorldStarts(bad: bool)
    ensures Consistent(Start0(bad))
  {}

  lemma ProcessWorld(s: State, a: Step, s': State)
    requires Consistent(s) && Do(s, a) == Some(s')
    requires a.SelectLoop? || a.InitStage? || a.StartStage? || a.StopStage? || a.LeaveStage?
    ensures Consistent(s')
  {
    match a
    case SelectLoop(x) => SelectElsewhere(s, x, s'); ElsewhereKeeps(s, s');
    case InitStage(x) => InitWorld(s, x, s');
    case StartStage(x) => StartWorld(s, x, s');
    case StopStage(x) => StopWorld(s, x, s');
    case LeaveStage(x) =>
      if x.ProcClose? { AcquireWorld(s, Process); } else { LeaveElsewhere(s, x, s'); ElsewhereKeeps(s, s'); }
    case _ =>
  }

  lemma ReadWorld(s: State, x: ReadStep, s': State)
    requires Consistent(s) && DoRead(s, x) == Some(s')
    ensures Consistent(s')
  {
    if x.ReadClose? { AcquireWorld(s, ReadPump); } else { ReadElsewhere(s, x, s'); ElsewhereKeeps(s, s'); }
  }

  lemma RedisWorld(s: State, i: nat, x: ReaderStep, s': State)
    requires Consistent(s) && i < |s.readers| && DoReader(s, i, x) == Some(s')
    ensures Consistent(s')
  {
    if x.SelfClose? { AcquireWorld(s, ReaderThread(i)); } else { ReaderWorld(s, i, x, s'); }
  }

  lemma OutWorld(s: State, n: nat, x: OutStep, s': State)
    requires Consistent(s) && n < |s.outs| && DoOut(s, n, x) == Some(s')
    ensures Consistent(s')
  {
    if x.OutClose? { AcquireWorld(s, Outsider(n)); } else { OutElsewhere(s, n, x, s'); ElsewhereKeeps(s, s'); }
  }

  lemma WorldKept(s: State, a: Step, s': State)
    requires Consistent(s) && TeardownProgress(s) && Do(s, a) == Some(s')
    ensures Consistent(s')
  {
    match a
    case InsideClose(x) => CloseWorld(s, x, s');
    case ReadPumpStep(x) => ReadWorld(s, x, s');
    case OutsiderStep(n, x) => OutWorld(s, n, x, s');
    case RedisReaderStep(i, x) => RedisWorld(s, i, x, s');
    case EnvironmentStep(x) => EnvWorld(s, x, s');
    case _ => ProcessWorld(s, a, s');
  }
}

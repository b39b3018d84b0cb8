/** Concrete runs of the Redis readers: what the conditions of the lemmas about them leave
    open does happen. */
module ReaderWitnesses {
  import opened Options
  import opened Machine
  import opened Runs
  import opened Dispatch
  import opened Ast
  import opened World
  import opened ReaderRuns
  import opened Feedback
  import opened Witnesses
  import RP = RedisProtocol

  // ---------------------------------------------------------------------------
  // A subscription
  // ---------------------------------------------------------------------------

  function Query(): StartBody {
    StartBody("subscription { f }",
              Some(Document([OperationDefinition("subscription", Some(SelectionSet([Field("f")])))])), true)
  }

  /** Established and idle, with the Redis handler registered next to the user's. */
  ghost predicate Live(s: State) {
    && s.state == Established && s.lock == Free && !s.crashed && !s.shutdown && s.hist.ranged.None?
    && s.handlers == [User, Redis] && s.outs == [] && !s.inq.closed
    && !s.outq.closed && s.outq.put == [Ack] && |s.outq.buf| == 1
  }

  lemma InitTaken() returns (s: State)
    ensures Reachable(s) && Fresh(s.(proc := Select)) && s.proc == InitCalls([User])
    ensures s.read == CheckState && s.inq.buf == []
  {
    var s0 := InitWaiting();
    s := DoSelect(s0, TakeIn).value;
    SelectTo(s0, TakeIn, s);
  }

  lemma InitDone() returns (s: State)
    ensures Reachable(s) && Fresh(s.(proc := Select)) && s.proc == Establish
    ensures s.read == CheckState && s.inq.buf == []
  {
    var s0 := InitTaken();
    var s1 := DoInit(s0, CallHandler(Returns(Nil))).value;
    InitTo(s0, CallHandler(Returns(Nil)), s1);
    s := DoInit(s1, EndCalls).value;
    InitTo(s1, EndCalls, s);
  }

  lemma ReadyHappens() returns (s: State)
    ensures Reachable(s) && Live(s) && s.readers == [] && s.redis == map[]
    ensures s.proc == Select && s.read == CheckState && s.inq.buf == []
  {
    var s0 := InitDone();
    var s1 := DoInit(s0, SetEstablished).value;
    InitTo(s0, SetEstablished, s1);
    var s2 := DoInit(s1, SendAck).value;
    InitTo(s1, SendAck, s2);
    s := DoEnv(s2, AddHandler(Redis)).value;
    EnvTo(s2, AddHandler(Redis), s);
  }

  lemma StartTo(s: State, x: StartStep, t: State)
    requires Reachable(s) && !s.crashed && DoStart(s, x) == Some(t)
    ensures Reachable(t)
  {
    ReachableStep(s, StartStage(x), t);
  }

  /** processMessages and readPump between two messages, nothing queued. */
  ghost predicate BetweenMessages(s: State) {
    s.proc == Select && s.read == CheckState && s.inq.buf == []
  }

  /** The peer sends a message and processMessages takes it. */
  lemma Takes(s: State, m: InMsg) returns (t: State)
    requires Reachable(s) && Live(s) && BetweenMessages(s) && m != EOF
    ensures Reachable(t) && Live(t) && BetweenMessages(t.(proc := Select)) && t.proc == Take(m, s.handlers)
    ensures t.readers == s.readers && t.redis == s.redis
  {
    var s1 := DoRead(s, ReadCheck).value;
    ReadTo(s, ReadCheck, s1);
    var s2 := DoRead(s1, ReadGot(m)).value;
    ReadTo(s1, ReadGot(m), s2);
    var s3 := DoRead(s2, ReadPut).value;
    ReadTo(s2, ReadPut, s3);
    t := DoSelect(s3, TakeIn).value;
    SelectTo(s3, TakeIn, t);
  }

  lemma FieldsOfQuery()
    ensures FieldNames(Query().parsed.value) == ["f"]
  {
    var defs := Query().parsed.value.definitions;
    assert defs[1..] == [];
    assert TopSelections(defs) == [Field("f")];
  }

  lemma Unmarshals(s: State) returns (t: State)
    requires Reachable(s) && Live(s) && BetweenMessages(s)
    ensures Reachable(t) && Live(t) && BetweenMessages(t.(proc := Select)) && t.proc == Validate("1", Query())
    ensures t.readers == s.readers && t.redis == s.redis
  {
    var s1 := Takes(s, Start("1", Query()));
    var s2 := DoStart(s1, CheckEstablished).value;
    StartTo(s1, CheckEstablished, s2);
    t := DoStart(s2, Unmarshal).value;
    StartTo(s2, Unmarshal, t);
  }

  /** A valid subscription "1" has come as far as the Redis handler. */
  lemma Starts(s: State) returns (t: State)
    requires Reachable(s) && Live(s) && BetweenMessages(s)
    ensures Reachable(t) && Live(t) && BetweenMessages(t.(proc := Select))
    ensures t.proc == SubStartCalls(NewSubscription("1", Query()), [Redis])
    ensures t.readers == s.readers && t.redis == s.redis
  {
    var s1 := Unmarshals(s);
    var s2 := DoStart(s1, ValidateStart(Returns(Nil))).value;
    StartTo(s1, ValidateStart(Returns(Nil)), s2);
    t := DoStart(s2, CallSubHandler(Returns(Nil))).value;
    StartTo(s2, CallSubHandler(Returns(Nil)), t);
  }

  const OUTCOMES: seq<RP.FieldOutcome> := [RP.Called(["t"], false)]

  lemma TopicsOfOutcomes()
    ensures RP.StartTopics(OUTCOMES) == Some(["t"])
  {
    assert RP.Requests(OUTCOMES) == ["t"];
  }

  /** The Redis handler stores a reader and is the last handler. */
  lemma Stores(s: State) returns (t: State)
    requires !s.crashed && Live(s) && BetweenMessages(s.(proc := Select))
    requires s.proc == SubStartCalls(NewSubscription("1", Query()), [Redis])
    ensures Do(s, StartStage(RedisStart(OUTCOMES))) == Some(t) && Live(t) && Started1(t)
    ensures t.readers == s.readers + [NewReader(NewSubscription("1", Query()), ["t"])]
    ensures t.redis == s.redis["1" := |s.readers|]
  {
    FieldsOfQuery();
    TopicsOfOutcomes();
    t := DoStart(s, RedisStart(OUTCOMES)).value;
  }

  /** The subscription "1" is started but for the end of the loop. */
  ghost predicate Started1(s: State) {
    s.proc == SubStartCalls(NewSubscription("1", Query()), []) && BetweenMessages(s.(proc := Select))
  }

  // From here on the runs are about the one reader, number 0. s is on a path from s0
  // when some run leads there that does not hinder the Close of that reader.

  ghost predicate OnPath(s0: State, s: State) {
    exists steps :: Run(s0, steps) == Some(s) && Unhindered(s0, steps, 0)
  }

  lemma PathStep(s0: State, s: State, a: Step, t: State)
    requires OnPath(s0, s) && Do(s, a) == Some(t) && !Hinders(s, 0, a)
    ensures OnPath(s0, t)
  {
    var steps :| Run(s0, steps) == Some(s) && Unhindered(s0, steps, 0);
    RunSnoc(s0, steps, a);
    assert (steps + [a])[..|steps|] == steps;
    assert forall k :: 0 <= k < |steps| ==> (steps + [a])[..k] == steps[..k];
    assert Unhindered(s0, steps + [a], 0);
  }

  lemma PathReachable(s0: State, s: State)
    requires Reachable(s0) && OnPath(s0, s)
    ensures Reachable(s)
  {
    var steps :| Run(s0, steps) == Some(s) && Unhindered(s0, steps, 0);
    ReachableRun(s0, steps, s);
  }

  lemma PathReader(s0: State, s: State, x: ReaderStep, t: State)
    requires OnPath(s0, s) && !s.crashed && |s.readers| == 1 && DoReader(s, 0, x) == Some(t)
    requires !Hinders(s, 0, RedisReaderStep(0, x))
    ensures OnPath(s0, t)
  {
    PathStep(s0, s, RedisReaderStep(0, x), t);
  }

  /** Steps after which nothing but the reader itself has changed. */
  predicate Plain1(r: Reader, x: ReaderStep) {
    ReaderAt(r, x) && !x.SendStep? && !x.SelfClose? && (x.LoadConn? ==> r.pubSub) && x != SelfWriteStep(false)
  }

  lemma Alone(s: State, x: ReaderStep) returns (t: State)
    requires Live(s) && |s.readers| == 1 && Plain1(s.readers[0], x)
    ensures Do(s, RedisReaderStep(0, x)) == Some(t) && !Hinders(s, 0, RedisReaderStep(0, x))
    ensures t == s.(readers := [NextReader(s.readers[0], x, false)])
  {
    t := DoReader(s, 0, x).value;
    assert s.readers[0 := NextReader(s.readers[0], x, false)] == [NextReader(s.readers[0], x, false)];
  }

  /** One step of the reader on a live connection. */
  lemma Steps(s0: State, s: State, x: ReaderStep) returns (t: State)
    requires OnPath(s0, s) && Live(s) && |s.readers| == 1 && Plain1(s.readers[0], x)
    ensures OnPath(s0, t) && t == s.(readers := [NextReader(s.readers[0], x, false)])
  {
    t := Alone(s, x);
    PathStep(s0, s, RedisReaderStep(0, x), t);
  }

  lemma PathClose(s0: State, s: State, x: CloseStep, t: State)
    requires OnPath(s0, s) && !s.crashed && DoClose(s, x) == Some(t) && !Hinders(s, 0, InsideClose(x))
    ensures OnPath(s0, t)
  {
    PathStep(s0, s, InsideClose(x), t);
  }

  /** One reader, running and open, for the subscription "1". */
  ghost predicate OneReader(s: State, pc: ReaderPc, errors: nat, pubSub: bool) {
    && |s.readers| == 1 && s.redis == map["1" := 0]
    && var r := s.readers[0];
       r.sub.id == "1" && r.state == RP.Running && r.pc == pc && r.errors == errors && r.pubSub == pubSub && !r.missed
       && !r.wasClosed
  }

  lemma SubscriptionStored() returns (s0: State, s: State)
    ensures Reachable(s0) && s0.readers == [] && OnPath(s0, s) && Live(s) && Started1(s)
    ensures s.redis == map["1" := 0] && s.readers == [NewReader(NewSubscription("1", Query()), ["t"])]
  {
    var s1 := ReadyHappens();
    s0 := Starts(s1);
    s := Stores(s0);
    assert Run(s0, []) == Some(s0) && Unhindered(s0, [], 0);
    PathStep(s0, s0, StartStage(RedisStart(OUTCOMES)), s);
  }

  lemma Dialling() returns (s0: State, s: State)
    ensures Reachable(s0) && s0.readers == [] && OnPath(s0, s) && Live(s) && Started1(s) && OneReader(s, Dial, 0, false)
  {
    var s1;
    s0, s1 := SubscriptionStored();
    var s2 := Steps(s0, s1, SetRunning);
    s := Steps(s0, s2, TopCheck);
  }

  // ---------------------------------------------------------------------------
  // A delivery
  // ---------------------------------------------------------------------------

  lemma Subscribing() returns (s: State)
    ensures Reachable(s) && Live(s) && Started1(s) && OneReader(s, Loop, 0, true)
  {
    var s0, s1 := Dialling();
    var s2 := Steps(s0, s1, DialStep(true));
    s := Steps(s0, s2, SubscribeStep(true));
    PathReachable(s0, s);
  }

  lemma ReaderTo(s: State, x: ReaderStep, t: State)
    requires Reachable(s) && !s.crashed && |s.readers| > 0 && DoReader(s, 0, x) == Some(t)
    ensures Reachable(t)
  {
    ReachableStep(s, RedisReaderStep(0, x), t);
  }

  /** Blocked in Receive. */
  lemma BlockedInReceive() returns (s: State)
    ensures Reachable(s) && Live(s) && OneReader(s, Waiting, 0, true)
  {
    var s0 := Subscribing();
    var s1 := Alone(s0, LoopCheck);
    ReaderTo(s0, LoopCheck, s1);
    s := Alone(s1, LoadConn);
    ReaderTo(s1, LoadConn, s);
  }

  /** A client that performs the handshake and starts a subscription does get data. */
  lemma DeliveryHappens() returns (s: State)
    ensures Reachable(s) && s.outq.put == [Ack, Data(0, "1", 7)]
  {
    var s0 := BlockedInReceive();
    var e := RP.Incoming(RP.RedisMessage(7, true));
    var s1 := DoReader(s0, 0, ReceiveStep(e)).value;
    ReaderTo(s0, ReceiveStep(e), s1);
    s := DoReader(s1, 0, SendStep).value;
    ReaderTo(s1, SendStep, s);
  }

  // ---------------------------------------------------------------------------
  // An outside Close
  // ---------------------------------------------------------------------------

  lemma OutsideCall(s: State) returns (t: State)
    requires Reachable(s) && Live(s)
    ensures Reachable(t) && Live(t.(outs := [])) && t.outs == [OutCall]
    ensures t.readers == s.readers && t.redis == s.redis
  {
    var s1 := DoEnv(s, SpawnCloser).value;
    EnvTo(s, SpawnCloser, s1);
    var s2 := DoOut(s1, 0, OutCheck).value;
    OutTo(s1, OutCheck, s2);
    t := DoOut(s2, 0, OutWrite(true)).value;
    OutTo(s2, OutWrite(true), t);
  }

  /** close has called the user's handler. */
  lemma OutsideBroadcast(s: State) returns (t: State)
    requires Reachable(s) && Live(s)
    ensures Reachable(t) && !t.crashed && !t.outq.closed && t.lock == WriteLocked(Outsider(0), Broadcast([Redis]))
    ensures t.readers == s.readers && t.redis == s.redis
  {
    var s1 := OutsideCall(s);
    var s2 := DoOut(s1, 0, OutClose).value;
    OutTo(s1, OutClose, s2);
    t := DoClose(s2, CallCloser(Returns(Nil))).value;
    CloseTo(s2, CallCloser(Returns(Nil)), t);
  }

  lemma OutsidePicks(s: State, j: nat) returns (t: State)
    requires Reachable(s) && !s.crashed && !s.outq.closed && s.lock == WriteLocked(Outsider(0), Broadcast([Redis]))
    requires s.redis == map["1" := j]
    ensures Reachable(t) && !t.crashed && !t.outq.closed && t.readers == s.readers && t.redis == s.redis
    ensures t.lock.WriteLocked? && t.lock.owner == Outsider(0) && t.lock.phase.Ranging? && t.lock.phase.todo == []
    ensures t.lock.phase.must == t.lock.phase.visited == {"1"} && t.lock.phase.at == Check(j)
  {
    var s1 := DoClose(s, RangeBegin).value;
    CloseTo(s, RangeBegin, s1);
    t := DoClose(s1, RangePick("1")).value;
    CloseTo(s1, RangePick("1"), t);
  }

  /** The Range closes the one reader in the map and is done. */
  lemma OutsideRange(s: State, j: nat) returns (t: State)
    requires Reachable(s) && !s.crashed && !s.outq.closed && s.lock == WriteLocked(Outsider(0), Broadcast([Redis]))
    requires s.redis == map["1" := j] && j < |s.readers| && s.readers[j].state != RP.Closed
    ensures Reachable(t) && !t.crashed && !t.outq.closed && t.lock == WriteLocked(Outsider(0), Broadcast([]))
    ensures t.readers == s.readers[j := ClosedReader(s.readers[j])] && t.redis == s.redis && t.hist.ranged.Some?
  {
    var s1 := OutsidePicks(s, j);
    var s2 := DoClose(s1, RangeCheck).value;
    CloseTo(s1, RangeCheck, s2);
    var s3 := DoClose(s2, RangeSet).value;
    CloseTo(s2, RangeSet, s3);
    t := DoClose(s3, RangeEnd).value;
    CloseTo(s3, RangeEnd, t);
  }

  lemma OutsideCloses(s: State, j: nat) returns (t: State)
    requires Reachable(s) && Live(s)
    requires s.redis == map["1" := j] && j < |s.readers| && s.readers[j].state != RP.Closed
    ensures Reachable(t) && !t.crashed && !t.outq.closed && t.lock == WriteLocked(Outsider(0), Broadcast([]))
    ensures t.readers == s.readers[j := ClosedReader(s.readers[j])] && t.redis == s.redis && t.hist.ranged.Some?
  {
    var s1 := OutsideBroadcast(s);
    t := OutsideRange(s1, j);
  }

  /** The ordinary end of a reader: closed while it listens, its Receive fails and
      readPump ends. */
  lemma ClosedWhileListening() returns (s: State)
    ensures Reachable(s) && !s.crashed && |s.readers| == 1
    ensures s.readers[0].pc == ReaderDone && s.readers[0].state == RP.Closed
  {
    var s0 := BlockedInReceive();
    var s1 := OutsideCloses(s0, 0);
    var s2 := DoReader(s1, 0, ReceiveStep(RP.Failure)).value;
    ReaderTo(s1, ReceiveStep(RP.Failure), s2);
    s := DoReader(s2, 0, TopCheck).value;
    ReaderTo(s2, TopCheck, s);
  }

  // ---------------------------------------------------------------------------
  // Survivors of a completed Range
  // ---------------------------------------------------------------------------

  /** A reader that the Range closes before it runs line 63 is reopened there. */
  lemma ReopenedAfterRange() returns (s: State)
    ensures Reachable(s) && s.hist.ranged.Some? && |s.readers| == 1
    ensures s.readers[0].wasClosed && s.readers[0].state == RP.Running
  {
    var s0 := ClosedBeforeRunning();
    s := DoReader(s0, 0, SetRunning).value;
    ReaderTo(s0, SetRunning, s);
  }

  lemma ClosedBeforeRunning() returns (s: State)
    ensures Reachable(s) && !s.crashed && s.hist.ranged.Some? && |s.readers| == 1
    ensures s.readers[0].wasClosed && s.readers[0].pc == Launched
  {
    var s0, s1 := SubscriptionStored();
    PathReachable(s0, s1);
    s := OutsideCloses(s1, 0);
  }

  /** The loop over the handlers of the start is over. */
  lemma StartEnds(s: State) returns (t: State)
    requires Reachable(s) && Live(s) && Started1(s)
    ensures Reachable(t) && t == s.(proc := Select)
  {
    t := DoStart(s, EndSubCalls).value;
    StartTo(s, EndSubCalls, t);
  }

  lemma RunningOnce() returns (s: State)
    ensures Reachable(s) && Live(s) && BetweenMessages(s) && s.redis == map["1" := 0]
    ensures |s.readers| == 1 && s.readers[0].state == RP.Running && !s.readers[0].wasClosed
  {
    var s0, s1 := SubscriptionStored();
    var s2 := Steps(s0, s1, SetRunning);
    PathReachable(s0, s2);
    s := StartEnds(s2);
  }

  /** The ID "1" is started twice. */
  lemma StartedTwice() returns (s: State)
    ensures Reachable(s) && Live(s) && s.redis == map["1" := 1]
    ensures |s.readers| == 2 && s.readers[0].state == RP.Running && !s.readers[0].wasClosed
    ensures s.readers[1].state == RP.Unknown
  {
    var s0 := RunningOnce();
    var s1 := Starts(s0);
    s := Stores(s1);
    StartTo(s1, RedisStart(OUTCOMES), s);
  }

  /** The second start displaces the first reader, and the Range leaves that one running. */
  lemma DisplacedOutlivesRange() returns (s: State)
    ensures Reachable(s) && s.hist.ranged.Some? && |s.readers| == 2
    ensures s.readers[0].state == RP.Running && !s.readers[0].wasClosed && s.readers[1].state == RP.Closed
  {
    var s0 := StartedTwice();
    s := OutsideCloses(s0, 1);
  }

  // ---------------------------------------------------------------------------
  // The process dies
  // ---------------------------------------------------------------------------

  /** A message arrives, the connection is closed, and the reader sends on the closed
      queue: nothing recovers its panic. */
  lemma DeliveryAfterClose() returns (s: State)
    ensures Reachable(s) && s.crashed && s.outq.closed
  {
    var s0 := AboutToSend();
    var s1 := OutsideCloses(s0, 0);
    var s2 := OutgoingCloses(s1);
    s := DoReader(s2, 0, SendStep).value;
    ReaderTo(s2, SendStep, s);
  }

  lemma AboutToSend() returns (s: State)
    ensures Reachable(s) && Live(s) && OneReader(s, SendData(7), 0, true)
  {
    var s0 := BlockedInReceive();
    var e := RP.Incoming(RP.RedisMessage(7, true));
    s := Alone(s0, ReceiveStep(e));
    ReaderTo(s0, ReceiveStep(e), s);
  }

  lemma OutgoingCloses(s: State) returns (t: State)
    requires Reachable(s) && !s.crashed && !s.outq.closed && s.lock == WriteLocked(Outsider(0), Broadcast([]))
    ensures Reachable(t) && !t.crashed && t.outq.closed && t.readers == s.readers
  {
    var s1 := DoClose(s, LastCloser).value;
    CloseTo(s, LastCloser, s1);
    t := DoClose(s1, CloseOutgoing).value;
    CloseTo(s1, CloseOutgoing, t);
  }

  lemma StopTo(s: State, x: StopStep, t: State)
    requires Reachable(s) && !s.crashed && DoStop(s, x) == Some(t)
    ensures Reachable(t)
  {
    ReachableStep(s, StopStage(x), t);
  }

  /** Between lines 108 and 118, with the connection idle. */
  lemma AboutToReceive() returns (s: State)
    ensures Reachable(s) && Live(s) && BetweenMessages(s) && OneReader(s, Receive, 0, true)
  {
    var s0 := Subscribing();
    var s1 := Alone(s0, LoopCheck);
    ReaderTo(s0, LoopCheck, s1);
    s := StartEnds(s1);
  }

  lemma StopLoaded() returns (s: State)
    ensures Reachable(s) && Live(s) && OneReader(s, Receive, 0, true)
    ensures s.proc.SubStopCalls? && s.proc.sub.id == "1" && s.proc.todo == [User, Redis]
  {
    var s0 := AboutToReceive();
    var s1 := Takes(s0, Stop(StopBody("1")));
    RedisMapAgrees(s1);
    StoredSubscriptions(s1, "1");
    s := DoStop(s1, LoadStop(Returns(Nil))).value;
    StopTo(s1, LoadStop(Returns(Nil)), s);
  }

  lemma StopReaches() returns (s: State)
    ensures Reachable(s) && Live(s) && OneReader(s, Receive, 0, true) && s.proc.StopCheck? && s.proc.j == 0
  {
    var s0 := StopLoaded();
    var s1 := DoStop(s0, CallStopHandler(Returns(Nil))).value;
    StopTo(s0, CallStopHandler(Returns(Nil)), s1);
    s := DoStop(s1, RedisStop).value;
    StopTo(s1, RedisStop, s);
  }

  /** A stop of a running subscription that lands between lines 108 and 118 of its reader
      kills the process, with the connection open. */
  lemma StopBeforeReceive() returns (s: State)
    ensures Reachable(s) && s.crashed && s.state == Established && !s.shutdown
  {
    var s0 := StopReaches();
    var s1 := DoStop(s0, ReaderCheck).value;
    StopTo(s0, ReaderCheck, s1);
    var s2 := DoStop(s1, ReaderSet).value;
    StopTo(s1, ReaderSet, s2);
    s := DoReader(s2, 0, LoadConn).value;
    ReaderTo(s2, LoadConn, s);
  }

  // ---------------------------------------------------------------------------
  // Four failures
  // ---------------------------------------------------------------------------

  lemma FailToSubscribe(s0: State, s: State) returns (t: State)
    requires OnPath(s0, s) && Live(s) && |s.readers| == 1
    requires OneReader(s, Dial, s.readers[0].errors, false)
    ensures OnPath(s0, t) && Live(t)
    ensures OneReader(t, if RP.GivesUp(s.readers[0].errors + 1) then SelfCheck else Top, s.readers[0].errors + 1, false)
  {
    var s1 := Steps(s0, s, DialStep(true));
    t := Steps(s0, s1, SubscribeStep(false));
  }

  lemma FailOnce(s0: State, s: State) returns (t: State)
    requires OnPath(s0, s) && Live(s) && |s.readers| == 1 && s.readers[0].errors < 3
    requires OneReader(s, Dial, s.readers[0].errors, false)
    ensures OnPath(s0, t) && Live(t) && OneReader(t, Dial, s.readers[0].errors + 1, false)
  {
    var s1 := FailToSubscribe(s0, s);
    t := Steps(s0, s1, TopCheck);
  }

  lemma FailedThrice() returns (s0: State, s: State)
    ensures Reachable(s0) && s0.readers == [] && OnPath(s0, s) && Live(s) && OneReader(s, Dial, 3, false)
  {
    s0, s := Dialling();
    s := FailOnce(s0, s);
    s := FailOnce(s0, s);
    s := FailOnce(s0, s);
  }

  lemma GivingUp() returns (s0: State, s: State)
    ensures Reachable(s0) && s0.readers == [] && OnPath(s0, s) && Live(s) && OneReader(s, SelfCheck, 4, false)
  {
    var s1;
    s0, s1 := FailedThrice();
    s := FailToSubscribe(s0, s1);
  }

  /** Reader 0, inside close, as far as the handlers `todo`. */
  ghost predicate SelfClosing(s: State, todo: seq<HandlerKind>) {
    && s.lock == WriteLocked(ReaderThread(0), Broadcast(todo)) && OneReader(s, SelfIn, 4, false)
    && !s.crashed && s.state == Closed && s.hist.ranged.None? && !s.inq.closed && !s.outq.closed
  }

  lemma SelfChecks() returns (s0: State, s: State)
    ensures Reachable(s0) && s0.readers == [] && OnPath(s0, s) && Live(s) && OneReader(s, SelfWrite, 4, false)
  {
    var s1;
    s0, s1 := GivingUp();
    s := Steps(s0, s1, SelfCheckStep);
  }

  lemma SelfCalls() returns (s0: State, s: State)
    ensures Reachable(s0) && s0.readers == [] && OnPath(s0, s) && Live(s) && OneReader(s, SelfCall, 4, false)
  {
    var s1;
    s0, s1 := SelfChecks();
    s := Steps(s0, s1, SelfWriteStep(true));
  }

  /** Reader 0 gets past the guard of close. */
  lemma AcquiredBySelf(s: State)
    requires Live(s) && |s.readers| == 1
    ensures var t := Acquire(s, ReaderThread(0));
            && t.lock == WriteLocked(ReaderThread(0), Broadcast(s.handlers)) && t.state == Closed
            && t.readers == [s.readers[0].(pc := SelfIn)] && t.redis == s.redis
            && t.crashed == s.crashed && t.hist.ranged == s.hist.ranged && t.inq == s.inq && t.outq == s.outq
  {
    assert s.readers[0 := s.readers[0].(pc := SelfIn)] == [s.readers[0].(pc := SelfIn)];
  }

  lemma EnteredBySelf(s0: State, s: State, t: State)
    requires OnPath(s0, s) && Live(s) && |s.readers| == 1 && s.readers[0].pc.SelfCall? && Redis in s.handlers
    requires t == Acquire(s, ReaderThread(0))
    ensures OnPath(s0, t)
  {
    PathReader(s0, s, SelfClose, t);
  }

  lemma SelfEnters() returns (s0: State, s: State)
    ensures Reachable(s0) && s0.readers == [] && OnPath(s0, s) && SelfClosing(s, [User, Redis])
  {
    var s1;
    s0, s1 := SelfCalls();
    assert Redis == s1.handlers[1];
    AcquiredBySelf(s1);
    s := Acquire(s1, ReaderThread(0));
    EnteredBySelf(s0, s1, s);
  }

  /** The reader inside its own close, closed by the Range at this point. */
  ghost predicate ClosedBySelf(s: State) {
    && |s.readers| == 1 && s.readers[0].state == RP.Closed && s.readers[0].errors == 4 && s.readers[0].pc == SelfIn
    && s.redis == map["1" := 0] && s.readers[0].sub.id == "1"
    && !s.crashed && s.lock.WriteLocked? && s.lock.owner == ReaderThread(0)
  }

  /** Reader 0, inside close, in the Range. */
  ghost predicate SelfRanging(s: State, at: RangeStep) {
    && s.lock.WriteLocked? && s.lock.owner == ReaderThread(0) && s.lock.phase.Ranging? && s.lock.phase.todo == []
    && s.lock.phase.must <= {"1"} && !s.crashed && !s.inq.closed && !s.outq.closed
    && s.lock.phase.at == at && (!at.Pick? ==> s.lock.phase.visited == {"1"})
  }

  lemma SelfBroadcasts() returns (s0: State, s: State)
    ensures Reachable(s0) && s0.readers == [] && OnPath(s0, s) && SelfClosing(s, [Redis])
  {
    var s1;
    s0, s1 := SelfEnters();
    s := DoClose(s1, CallCloser(Returns(Nil))).value;
    PathClose(s0, s1, CallCloser(Returns(Nil)), s);
  }

  lemma SelfBegins() returns (s0: State, s: State)
    ensures Reachable(s0) && s0.readers == [] && OnPath(s0, s)
    ensures OneReader(s, SelfIn, 4, false) && SelfRanging(s, Pick) && s.lock.phase.visited == {}
  {
    var s1;
    s0, s1 := SelfBroadcasts();
    s := DoClose(s1, RangeBegin).value;
    PathClose(s0, s1, RangeBegin, s);
  }

  lemma SelfPicks() returns (s0: State, s: State)
    ensures Reachable(s0) && s0.readers == [] && OnPath(s0, s)
    ensures OneReader(s, SelfIn, 4, false) && SelfRanging(s, Check(0))
  {
    var s1;
    s0, s1 := SelfBegins();
    s := DoClose(s1, RangePick("1")).value;
    PathClose(s0, s1, RangePick("1"), s);
  }

  lemma SelfFinds() returns (s0: State, s: State)
    ensures Reachable(s0) && s0.readers == [] && OnPath(s0, s)
    ensures OneReader(s, SelfIn, 4, false) && SelfRanging(s, RangeStep.Set(0))
  {
    var s1;
    s0, s1 := SelfPicks();
    s := DoClose(s1, RangeCheck).value;
    PathClose(s0, s1, RangeCheck, s);
  }

  lemma SelfCloses() returns (s0: State, s: State)
    ensures Reachable(s0) && s0.readers == [] && OnPath(s0, s) && ClosedBySelf(s) && SelfRanging(s, Pick)
    ensures s.lock.phase.visited == {"1"}
  {
    var s1;
    s0, s1 := SelfFinds();
    s := DoClose(s1, RangeSet).value;
    PathClose(s0, s1, RangeSet, s);
  }

  lemma SelfRanges() returns (s0: State, s: State)
    ensures Reachable(s0) && s0.readers == [] && OnPath(s0, s) && ClosedBySelf(s)
    ensures s.lock.phase == Broadcast([]) && !s.inq.closed && !s.outq.closed
  {
    var s1;
    s0, s1 := SelfCloses();
    s := DoClose(s1, RangeEnd).value;
    PathClose(s0, s1, RangeEnd, s);
  }

  lemma SelfIsLast() returns (s0: State, s: State)
    ensures Reachable(s0) && s0.readers == [] && OnPath(s0, s) && ClosedBySelf(s)
    ensures s.lock.phase == CloseOut && !s.inq.closed && !s.outq.closed
  {
    var s1;
    s0, s1 := SelfRanges();
    s := DoClose(s1, LastCloser).value;
    PathClose(s0, s1, LastCloser, s);
  }

  lemma SelfQueues() returns (s0: State, s: State)
    ensures Reachable(s0) && s0.readers == [] && OnPath(s0, s) && ClosedBySelf(s) && s.lock.phase == CloseSocket
  {
    var s1;
    s0, s1 := SelfIsLast();
    var s2 := DoClose(s1, CloseOutgoing).value;
    PathClose(s0, s1, CloseOutgoing, s2);
    s := DoClose(s2, CloseIncoming).value;
    PathClose(s0, s2, CloseIncoming, s);
  }

  /** Four Subscribe failures, the reader's Close, the Range that closes the reader, and
      the end of its readPump, in one run from before it was stored that nothing hinders. */
  lemma FourthFailureCloses() returns (s0: State, s: State)
    ensures Reachable(s0) && s0.readers == [] && OnPath(s0, s)
    ensures |s.readers| == 1 && s.readers[0].errors == 4 && !s.readers[0].missed
    ensures s.readers[0].state == RP.Closed && s.readers[0].pc == ReaderDone
    ensures !Displaced(s.redis, s.readers, 0)
  {
    var s1;
    s0, s1 := SelfQueues();
    var s2 := DoClose(s1, CloseConn(true)).value;
    PathClose(s0, s1, CloseConn(true), s2);
    s := DoReader(s2, 0, TopCheck).value;
    PathReader(s0, s2, TopCheck, s);
    PathMissed(s0, s);
  }

  lemma PathMissed(s0: State, s: State)
    requires Reachable(s0) && s0.readers == [] && OnPath(s0, s) && |s.readers| == 1
    requires !Displaced(s.redis, s.readers, 0)
    ensures !s.readers[0].missed
  {
    var steps :| Run(s0, steps) == Some(s) && Unhindered(s0, steps, 0);
    CounterBounded(s0, steps, s, 0);
  }

  // ---------------------------------------------------------------------------
  // A reader that its own Close misses
  // ---------------------------------------------------------------------------

  lemma HandlerStops() returns (s: State)
    ensures Reachable(s) && s.lock == WriteLocked(ReaderThread(0), CloseOut) && OneReader(s, SelfIn, 4, false)
    ensures !s.crashed && s.state == Closed && !s.inq.closed && !s.outq.closed
  {
    var s0, s1 := SelfEnters();
    PathReachable(s0, s1);
    s := DoClose(s1, CallCloser(Returns(Flagged(false, true)))).value;
    CloseTo(s1, CallCloser(Returns(Flagged(false, true))), s);
  }

  /** A close handler registered before the Redis handler stops the propagation: the
      connection is torn down and the reader that called Close goes on, not Closed. */
  lemma CloseMissesItsReader() returns (s: State)
    ensures Reachable(s) && !s.crashed && s.state == Closed && s.lock == Free
    ensures |s.readers| == 1 && s.readers[0].missed && s.readers[0].state == RP.Running
    ensures s.readers[0].pc == Top && s.readers[0].errors == 4
  {
    var s0 := HandlerStops();
    var s1 := DoClose(s0, CloseOutgoing).value;
    CloseTo(s0, CloseOutgoing, s1);
    var s2 := DoClose(s1, CloseIncoming).value;
    CloseTo(s1, CloseIncoming, s2);
    s := DoClose(s2, CloseConn(true)).value;
    CloseTo(s2, CloseConn(true), s);
  }

  /** Its next failure takes the counter beyond four. */
  lemma CounterExceedsFour() returns (s: State)
    ensures Reachable(s) && |s.readers| == 1 && s.readers[0].errors == 5
  {
    var s0 := CloseMissesItsReader();
    var s1 := DoReader(s0, 0, TopCheck).value;
    ReaderTo(s0, TopCheck, s1);
    var s2 := DoReader(s1, 0, DialStep(true)).value;
    ReaderTo(s1, DialStep(true), s2);
    s := DoReader(s2, 0, SubscribeStep(false)).value;
    ReaderTo(s2, SubscribeStep(false), s);
  }
}

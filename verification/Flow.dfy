/** The control flow of the sources as a relation, written line by line over program
    points, events and fields, and the proof that the machine takes exactly the steps
    it allows, with exactly the effects it allows. */
module Flow {
  import opened Options
  import opened Ast
  import opened Subscriptions
  import opened Subscribers
  import opened Channels
  import opened Machine
  import opened Dispatch
  import opened Control
  import opened Lifecycle
  import RP = RedisProtocol

  // ---------------------------------------------------------------------------
  // When a step can be taken
  // ---------------------------------------------------------------------------

  /** A send goes through, or panics, unless ten messages are pending. */
  predicate Room<T>(c: Chan<T>) {
    c.closed || |c.buf| < 10
  }

  predicate ReadCan(s: State, x: ReadStep) {
    match x
    case ReadSetState => s.read == SetInitializing && s.lock == Free
    case ReadCheck => s.read == CheckState && !s.lock.WriteLocked?
    case ReadGot(m) => s.read == Read && m != EOF
    case ReadPeerClose => s.read == Read
    case ReadPanics => s.read == Read
    case ReadFails(_) => s.read == Read || s.read == ReadFailed
    case ReadPut => s.read.Put? && Room(s.inq)
    case ReadClose => s.read.CallClose? && s.lock == Free
  }

  predicate SelectCan(s: State, x: SelectStep) {
    match x
    case MakeTicker => s.proc == Boot
    case SeeShutdown => s.proc == Select && s.shutdown
    case TakeIn => s.proc == Select && (s.inq.buf != [] || s.inq.closed)
    case TakeOut => s.proc == Select && (s.outq.buf != [] || s.outq.closed)
    case Ping(_) => s.proc == Select
  }

  predicate InitCan(s: State, x: InitStep) {
    match x
    case CallHandler(_) => (s.proc.InitCalls? || s.proc.TerminateCalls?) && s.proc.todo != [] && s.proc.todo[0] == User
    case SkipHandler => (s.proc.InitCalls? || s.proc.TerminateCalls?) && s.proc.todo != [] && s.proc.todo[0] == Redis
    case EndCalls => (s.proc.InitCalls? || s.proc.TerminateCalls?) && s.proc.todo == []
    case ConnErrChecked => s.proc == ConnErrCheck && !s.lock.WriteLocked?
    case ConnErrSent => s.proc == ConnErrSend && Room(s.outq)
    case SendEof => s.proc == EofSend && Room(s.inq)
    case SetEstablished => s.proc == Establish && s.lock == Free
    case SendAck => s.proc == AckSend && Room(s.outq)
  }

  predicate StartCan(s: State, x: StartStep) {
    match x
    case CheckEstablished => s.proc.StartCheck? && !s.lock.WriteLocked?
    case Unmarshal => s.proc.StartUnmarshal?
    case OpErrChecked(_) => s.proc.OpErrCheck? && !s.lock.WriteLocked?
    case OpErrSent => s.proc.OpErrSend? && Room(s.outq)
    case ValidateStart(_) => s.proc.Validate?
    case CallSubHandler(_) => s.proc.SubStartCalls? && s.proc.todo != [] && s.proc.todo[0] == User
    case RedisStart(fields) =>
      s.proc.SubStartCalls? && s.proc.todo != [] && s.proc.todo[0] == Redis && |fields| == |s.proc.sub.fields|
    case RedisStartPanics => s.proc.SubStartCalls? && s.proc.todo != [] && s.proc.todo[0] == Redis
    case EndSubCalls => s.proc.SubStartCalls? && s.proc.todo == []
  }

  predicate StopCan(s: State, x: StopStep) {
    match x
    case LoadStop(_) => s.proc.StopLoad?
    case CallStopHandler(_) => s.proc.SubStopCalls? && s.proc.todo != [] && s.proc.todo[0] == User
    case RedisStop => s.proc.SubStopCalls? && s.proc.todo != [] && s.proc.todo[0] == Redis
    case ReaderCheck => s.proc.StopCheck? && s.proc.j < |s.readers|
    case ReaderSet => s.proc.StopSet? && s.proc.j < |s.readers|
    case EndStopCalls => s.proc.SubStopCalls? && s.proc.todo == []
  }

  predicate LeaveCan(s: State, x: LeaveStep) {
    match x
    case ProcClose => s.proc.ProcCall? && s.lock == Free
    case CallPanicHandler(_) => s.proc.PanicCalls? && s.proc.todo != [] && s.proc.todo[0] == User
    case SkipPanicHandler => s.proc.PanicCalls? && s.proc.todo != [] && s.proc.todo[0] == Redis
    case EndPanicCalls => s.proc.PanicCalls? && s.proc.todo == []
    case CheckPanicState => s.proc == PanicCheck && !s.lock.WriteLocked?
    case SendPanicEof => s.proc == PanicEofSend && Room(s.inq)
  }

  predicate CloseCan(s: State, x: CloseStep) {
    s.lock.WriteLocked? &&
    match s.lock.phase
    case Broadcast(todo) =>
      if todo == [] then x == LastCloser else if todo[0] == User then x.CallCloser? else x == RangeBegin
    case Ranging(_, _, must, visited, at) =>
      (match at
       case Pick => (x.RangePick? && x.key in s.redis && x.key !in visited) || (x == RangeEnd && must <= visited)
       case Check(j) => x == RangeCheck && j < |s.readers|
       case Set(j) => x == RangeSet && j < |s.readers|)
    case CloseOut => x == CloseOutgoing
    case CloseIn => x == CloseIncoming
    case CloseSocket => x.CloseConn?
  }

  predicate OutCan(s: State, n: nat, x: OutStep) {
    n < |s.outs| &&
    match x
    case OutCheck => s.outs[n] == CloseCheck && !s.lock.WriteLocked?
    case OutWrite(_) => s.outs[n] == CloseWrite
    case OutClose => s.outs[n] == OutCall && s.lock == Free
  }

  predicate ReaderCan(s: State, i: nat, x: ReaderStep) {
    i < |s.readers| &&
    match x
    case SetRunning => s.readers[i].pc == Launched
    case TopCheck => s.readers[i].pc == Top
    case DialStep(_) => s.readers[i].pc == Dial
    case SubscribeStep(_) => s.readers[i].pc == ReaderPc.Subscribe
    case LoopCheck => s.readers[i].pc == ReaderPc.Loop
    case LoadConn => s.readers[i].pc == Receive
    case ReceiveStep(_) => s.readers[i].pc == Waiting
    case SendStep => s.readers[i].pc.SendData? && Room(s.outq)
    case SelfCheckStep => s.readers[i].pc == SelfCheck && !s.lock.WriteLocked?
    case SelfWriteStep(_) => s.readers[i].pc == SelfWrite
    case SelfClose => s.readers[i].pc == SelfCall && s.lock == Free
  }

  /** AddHandler waits for the lock of lockHandlers (249), held from 564 to 596. */
  predicate EnvCan(s: State, x: EnvStep) {
    match x
    case AddHandler(_) => !s.proc.InitCalls? && !s.proc.ConnErrCheck? && !s.proc.ConnErrSend?
    case SpawnCloser => true
    case OutsideSend => !s.outq.closed && |s.outq.buf| < 10
  }

  predicate Can(s: State, a: Step) {
    !s.crashed &&
    match a
    case ReadPumpStep(x) => ReadCan(s, x)
    case SelectLoop(x) => SelectCan(s, x)
    case InitStage(x) => InitCan(s, x)
    case StartStage(x) => StartCan(s, x)
    case StopStage(x) => StopCan(s, x)
    case LeaveStage(x) => LeaveCan(s, x)
    case InsideClose(x) => CloseCan(s, x)
    case OutsiderStep(n, x) => OutCan(s, n, x)
    case RedisReaderStep(i, x) => ReaderCan(s, i, x)
    case EnvironmentStep(x) => EnvCan(s, x)
  }

  // ---------------------------------------------------------------------------
  // What a step does
  // ---------------------------------------------------------------------------

  // Where a panic of processMessages goes: the deferred close, then recover.
  ghost predicate Unwinds(p: ProcPc) {
    p == ProcCall(LeaveLoop(true))
  }

  /** m is enqueued, or the channel is closed and the sender panics. */
  ghost predicate Puts<T>(c: Chan<T>, m: T, c': Chan<T>) {
    if c.closed then c' == c
    else c' == Chan(c.buf + [m], false, c.put + [m], c.got)
  }

  /** The oldest message is taken; from a drained channel comes nil. */
  ghost predicate Gets<T>(c: Chan<T>, c': Chan<T>) {
    if c.buf == [] then c' == c
    else c' == Chan(c.buf[1..], c.closed, c.put, c.got + [c.buf[0]])
  }

  /** readPump, 439-490. */
  ghost predicate ReadFlow(s: State, x: ReadStep, s': State)
    requires ReadCan(s, x)
  {
    match x
    case ReadSetState =>
      && s' == s.(read := CheckState, state := Initializing, hist := s'.hist)
      && s'.hist == s.hist.(reopens := s.hist.reopens + (if s.state == Closed then 1 else 0),
                            lateInit := s.proc.PanicCalls? || s.proc.PanicCheck? || s.proc.PanicEofSend?
                                        || s.proc.ProcDone?)
    case ReadCheck => s' == s.(read := if s.state == Closed then CallClose(LeaveRead(false)) else Read)
    case ReadGot(m) => s' == s.(read := Put(m))
    case ReadPeerClose => s' == s.(read := CallClose(CloseHandler))
    case ReadPanics => s' == s.(read := CallClose(LeaveRead(true)))
    case ReadFails(e) =>
      s' == s.(read := match e
                       case CloseError => CallClose(LeaveRead(false))
                       case OpError => CallClose(LeaveRead(false))
                       case NetError => Put(EOF)
                       case OtherError => Put(EOF))
    case ReadPut =>
      && s' == s.(inq := s'.inq, read := s'.read) && Puts(s.inq, s.read.m, s'.inq)
      && s'.read == (if s.inq.closed then CallClose(LeaveRead(true))
                     else if s.read.m == EOF then CallClose(LeaveRead(false)) else CheckState)
    case ReadClose => EntersFlow(s, ReadPump, s')
  }

  /** The select loop, 495-550, and what processIncomeMessage does first with each
      message (522, 556-677). */
  ghost predicate SelectFlow(s: State, x: SelectStep, s': State)
    requires SelectCan(s, x)
  {
    match x
    case MakeTicker =>
      s' == s.(proc := if s.badTicker then PanicCalls(s.handlers) else Select,
               hist := s.hist.(ticker := !s.badTicker))
    case SeeShutdown => s' == s.(proc := ProcCall(LeaveLoop(false)))
    case TakeIn =>
      && s' == s.(inq := s'.inq, proc := s'.proc) && Gets(s.inq, s'.inq)
      && (s.inq.buf == [] ==> Unwinds(s'.proc))
      && (s.inq.buf != [] ==>
            match s.inq.buf[0]
            case EOF => s'.proc == ProcCall(LeaveLoop(false))
            case Init => s'.proc == InitCalls(s.handlers)
            case Terminate => s'.proc == TerminateCalls(s.handlers)
            case Start(id, start) => s'.proc == StartCheck(id, start)
            case Stop(EmptyStop) => s'.proc == ProcCall(FromStop)
            case Stop(BadStop) => Unwinds(s'.proc)
            case Stop(StopBody(id)) => s'.proc == StopLoad(id)
            case Other => s'.proc == Select)
    case TakeOut => s' == s.(outq := s'.outq) && Gets(s.outq, s'.outq)
    case Ping(ok) => s' == s.(proc := if ok then Select else ProcCall(LeaveLoop(false)))
  }

  /** connection_init and connection_terminate, 564-637, with sendConnectionError. */
  ghost predicate InitFlow(s: State, x: InitStep, s': State)
    requires InitCan(s, x)
  {
    match x
    case CallHandler(Panics) => s' == s.(proc := s'.proc) && Unwinds(s'.proc)
    case CallHandler(Returns(r)) =>
      && s' == s.(proc := s'.proc)
      && (s.proc.TerminateCalls? ==>
            s'.proc == if r.Flagged? && r.propagationStopped then EofSend else TerminateCalls(s.proc.todo[1..]))
      && (s.proc.InitCalls? ==>
            match r
            case Nil => s'.proc == InitCalls(s.proc.todo[1..])
            case Plain => s'.proc == ConnErrCheck
            case Flagged(prevented, stopped) =>
              s'.proc == if stopped then Establish else if prevented then InitCalls(s.proc.todo[1..]) else EofSend)
    case SkipHandler =>
      s' == s.(proc := if s.proc.InitCalls? then InitCalls(s.proc.todo[1..]) else TerminateCalls(s.proc.todo[1..]))
    case EndCalls => s' == s.(proc := if s.proc.InitCalls? then Establish else EofSend)
    case ConnErrChecked =>
      if s.state == Closed then s' == s.(proc := EofSend) else s' == s.(proc := ConnErrSend, lock := ReadLocked)
    case ConnErrSent =>
      && s' == s.(outq := s'.outq, lock := Free, proc := s'.proc) && Puts(s.outq, ConnectionError, s'.outq)
      && if s.outq.closed then Unwinds(s'.proc) else s'.proc == EofSend
    case SendEof =>
      && s' == s.(inq := s'.inq, proc := s'.proc) && Puts(s.inq, EOF, s'.inq)
      && if s.inq.closed then Unwinds(s'.proc) else s'.proc == Select
    case SetEstablished =>
      && s' == s.(proc := AckSend, state := Established, hist := s'.hist)
      && s'.hist == s.hist.(reopens := s.hist.reopens + (if s.state == Closed then 1 else 0),
                            inits := s.hist.inits + 1)
    case SendAck =>
      && s' == s.(outq := s'.outq, proc := s'.proc) && Puts(s.outq, Ack, s'.outq)
      && if s.outq.closed then Unwinds(s'.proc) else s'.proc == Select
  }

  /** The subscription made of an accepted start, 337-378. */
  ghost predicate MadeFrom(sub: Subscription, id: string, start: StartBody) {
    && start.StartBody? && start.parsed.Some?
    && sub.id == id && sub.query == start.query && sub.connected
    && sub.document == start.parsed && sub.fields == FieldNames(start.parsed.value)
  }

  /** start, 641-660 and 312-397, with sendOperationErrors and handler.go 48-79. */
  ghost predicate StartFlow(s: State, x: StartStep, s': State)
    requires StartCan(s, x)
  {
    match x
    case CheckEstablished =>
      && s' == s.(proc := s'.proc)
      && if s.state == Established then s'.proc == StartUnmarshal(s.proc.id, s.proc.start) else Unwinds(s'.proc)
    case Unmarshal =>
      s' == s.(proc := match s.proc.start
                       case BadStart => OpErrCheck(s.proc.id)
                       case StartBody(_, _, _) => Validate(s.proc.id, s.proc.start))
    case OpErrChecked(marshals) =>
      if s.state == Closed || !marshals then s' == s.(proc := Select)
      else s' == s.(proc := OpErrSend(s.proc.id), lock := ReadLocked)
    case OpErrSent =>
      && s' == s.(outq := s'.outq, lock := Free, proc := s'.proc)
      && Puts(s.outq, OperationErrors(s.proc.id), s'.outq)
      && if s.outq.closed then Unwinds(s'.proc) else s'.proc == Select
    case ValidateStart(Panics) => s' == s.(proc := s'.proc) && Unwinds(s'.proc)
    case ValidateStart(Returns(_)) => ValidateFlow(s, s.proc.id, s.proc.start, s')
    case CallSubHandler(Panics) => s' == s.(proc := s'.proc) && Unwinds(s'.proc)
    case CallSubHandler(Returns(r)) =>
      s' == s.(proc := if r.Flagged? && r.propagationStopped then Select
                       else SubStartCalls(s.proc.sub, s.proc.todo[1..]))
    case RedisStart(fields) => RedisStartFlow(s, fields, s')
    case RedisStartPanics => s' == s.(proc := s'.proc) && Unwinds(s'.proc)
    case EndSubCalls => s' == s.(proc := Select)
  }

  /** The subscription is stored, and the start handlers are called, iff ID and query
      are not empty, the query parses and the document is valid. */
  ghost predicate ValidateFlow(s: State, id: string, start: StartBody, s': State) {
    if id != "" && start.StartBody? && start.query != "" && start.parsed.Some? && start.valid then
      && s' == s.(subs := s'.subs, origin := s.origin[id := start], proc := s'.proc)
      && s'.subs.Keys == s.subs.Keys + {id} && (forall k :: k in s.subs && k != id ==> s'.subs[k] == s.subs[k])
      && MadeFrom(s'.subs[id], id, start) && s'.proc == SubStartCalls(s'.subs[id], s.handlers)
    else s' == s.(proc := Select)
  }

  /** A new reader is stored under the ID and launched iff every field was found, has a
      Subscribe and succeeds; its topics are the requests of all fields in order, each
      at its first occurrence. */
  ghost predicate RedisStartFlow(s: State, fields: seq<RP.FieldOutcome>, s': State)
    requires StartCan(s, RedisStart(fields))
  {
    if forall k :: 0 <= k < |fields| ==> fields[k].Called? && !fields[k].failed then
      && s' == s.(proc := SubStartCalls(s.proc.sub, s.proc.todo[1..]), readers := s'.readers,
                  redis := s.redis[s.proc.sub.id := |s.readers|])
      && |s'.readers| == |s.readers| + 1 && s'.readers[..|s.readers|] == s.readers
      && var r := s'.readers[|s.readers|];
         && IsFirstOccurrences(r.topics, RP.Requests(fields))
         && r == Reader(s.proc.sub, r.topics, RP.Unknown, false, 0, 0, Launched, false, false, false, [], [], [])
    else s' == s.(proc := SubStartCalls(s.proc.sub, s.proc.todo[1..]))
  }

  /** reader.close, reader.go 157-171, past its check: Closed and without a connection. */
  ghost predicate ClosesAt(s: State, j: nat, readers: seq<Reader>)
    requires j < |s.readers|
  {
    readers == s.readers[j := s.readers[j].(state := RP.Closed, pubSub := false, wasClosed := true)]
  }

  /** stop, 402-436, with handler.go 83-91 and reader.close. */
  ghost predicate StopFlow(s: State, x: StopStep, s': State)
    requires StopCan(s, x)
  {
    match x
    case LoadStop(Panics) => s' == s.(proc := s'.proc) && Unwinds(s'.proc)
    case LoadStop(Returns(_)) =>
      s' == s.(proc := if s.proc.id in s.subs then SubStopCalls(s.subs[s.proc.id], s.handlers) else Select)
    case CallStopHandler(Panics) => s' == s.(proc := s'.proc) && Unwinds(s'.proc)
    case CallStopHandler(Returns(r)) =>
      s' == s.(proc := if r.Flagged? && r.propagationStopped then Select
                       else SubStopCalls(s.proc.sub, s.proc.todo[1..]))
    case RedisStop =>
      s' == s.(proc := if s.proc.sub.id in s.redis
                       then StopCheck(s.proc.sub, s.proc.todo[1..], s.redis[s.proc.sub.id])
                       else SubStopCalls(s.proc.sub, s.proc.todo[1..]))
    case ReaderCheck =>
      s.proc.j < |s.readers| &&
      s' == s.(proc := if s.readers[s.proc.j].state == RP.Closed then SubStopCalls(s.proc.sub, s.proc.todo)
                       else StopSet(s.proc.sub, s.proc.todo, s.proc.j))
    case ReaderSet =>
      && s.proc.j < |s.readers| && s' == s.(readers := s'.readers, proc := SubStopCalls(s.proc.sub, s.proc.todo))
      && ClosesAt(s, s.proc.j, s'.readers)
    case EndStopCalls => s' == s.(proc := Select)
  }

  /** The deferred close and recover, 267-300 and 504-508. A panic of a panic handler, and
      of the send at 298, ends the process. */
  ghost predicate LeaveFlow(s: State, x: LeaveStep, s': State)
    requires LeaveCan(s, x)
  {
    match x
    case ProcClose => EntersFlow(s, Process, s')
    case CallPanicHandler(Panics) => s' == s.(proc := ProcDone, crashed := true)
    case CallPanicHandler(Returns(r)) =>
      s' == s.(proc := if r.Flagged? && r.propagationStopped then PanicCheck else PanicCalls(s.proc.todo[1..]))
    case SkipPanicHandler => s' == s.(proc := PanicCalls(s.proc.todo[1..]))
    case EndPanicCalls => s' == s.(proc := PanicCheck)
    case CheckPanicState => s' == s.(proc := if s.state == Closed then ProcDone else PanicEofSend)
    case SendPanicEof =>
      s' == s.(inq := s'.inq, proc := ProcDone, crashed := s.inq.closed) && Puts(s.inq, EOF, s'.inq)
  }

  /** Where a call of close leaves its caller, with what result. */
  ghost predicate ReturnsTo(s: State, who: Tid, res: CloseResult, s': State) {
    && |s'.results| == |s.results| + 1 && s'.results[..|s.results|] == s.results
    && s'.results[|s.results|].who == who && s'.results[|s.results|].result == res
    && (s'.results[|s.results|].leaving <==>
          (who == ReadPump && (s.read.CallClose? || s.read.InClose?) && s.read.site.LeaveRead?)
          || (who == Process && (s.proc.ProcCall? || s.proc.ProcIn?) && s.proc.psite.LeaveLoop?))
    && s'.lock == Free && s'.state == Closed
    && (who != ReadPump ==> s'.read == s.read) && (who != Process ==> s'.proc == s.proc)
    && (!who.Outsider? ==> s'.outs == s.outs) && (!who.ReaderThread? ==> s'.readers == s.readers)
    && match who
       case ReadPump =>
         (s.read.CallClose? || s.read.InClose?) &&
         (match s.read.site
          case LeaveRead(panicking) => s'.read == ReadDone && s'.crashed == (panicking || res == Panicked)
          case CloseHandler =>
            && !s'.crashed
            && match res
               case Refused => s'.read == Put(EOF)
               case TornDown(ok) => s'.read == if ok then CallClose(LeaveRead(false)) else ReadFailed
               case HandlerFailed => s'.read == ReadFailed
               case Panicked => s'.read == CallClose(LeaveRead(true)))
       case Process =>
         (s.proc.ProcCall? || s.proc.ProcIn?) && !s'.crashed &&
         (match s.proc.psite
          case FromStop => if res == Panicked then Unwinds(s'.proc) else s'.proc == Select
          case LeaveLoop(panicking) =>
            s'.proc == if panicking || res == Panicked then PanicCalls(s.handlers) else ProcDone)
       case Outsider(n) => n < |s.outs| && s'.outs == s.outs[n := OutDone] && !s'.crashed
       case ReaderThread(i) =>
         && i < |s.readers| && s'.crashed == (res == Panicked)
         && s'.readers == s.readers[i := s.readers[i].(pc := Top, missed := s.readers[i].missed
                                                                             || s.readers[i].state != RP.Closed)]
  }

  ghost predicate GoesInside(s: State, who: Tid, s': State) {
    && (who == ReadPump ==> s.read.CallClose? && s'.read == InClose(s.read.site))
    && (who == Process ==> s.proc.ProcCall? && s'.proc == ProcIn(s.proc.psite))
    && (who.Outsider? ==> who.n < |s.outs| && s'.outs == s.outs[who.n := OutIn])
    && (who.ReaderThread? ==>
          who.i < |s.readers| && s'.readers == s.readers[who.i := s.readers[who.i].(pc := SelfIn)])
    && (who != ReadPump ==> s'.read == s.read) && (who != Process ==> s'.proc == s.proc)
    && (!who.Outsider? ==> s'.outs == s.outs) && (!who.ReaderThread? ==> s'.readers == s.readers)
  }

  /** The guard of close and what follows under the lock up to the handlers, 184-197. */
  ghost predicate EntersFlow(s: State, who: Tid, s': State) {
    && s' == s.(state := Closed, shutdown := s'.shutdown, lock := s'.lock, read := s'.read, proc := s'.proc,
                outs := s'.outs, readers := s'.readers, crashed := s'.crashed, results := s'.results, hist := s'.hist)
    && s'.hist == s.hist.(passes := s.hist.passes + (if s.state == Closed then 0 else 1))
    && if s.state == Closed then ReturnsTo(s, who, Refused, s') && s'.shutdown == s.shutdown
       else if s.shutdown then ReturnsTo(s, who, Panicked, s') && s'.shutdown
       else
         && s'.shutdown && s'.lock == WriteLocked(who, Broadcast(s.handlers))
         && GoesInside(s, who, s') && !s'.crashed && s'.results == s.results
  }

  /** close returns res. */
  ghost predicate CloseEnds(s: State, res: CloseResult, s': State)
    requires s.lock.WriteLocked?
  {
    && s' == s.(lock := s'.lock, read := s'.read, proc := s'.proc, outs := s'.outs, readers := s'.readers,
                crashed := s'.crashed, results := s'.results)
    && ReturnsTo(s, s.lock.owner, res, s')
  }

  /** close stays at work, now at this phase. */
  ghost predicate CloseAt(s: State, phase: ClosePhase, s': State)
    requires s.lock.WriteLocked?
  {
    s' == s.(lock := WriteLocked(s.lock.owner, phase))
  }

  /** close past its guard, 197-219, with handler.go 95-107 and reader.close. */
  ghost predicate CloseFlow(s: State, x: CloseStep, s': State)
    requires CloseCan(s, x)
  {
    var ph := s.lock.phase;
    match x
    case CallCloser(Panics) => CloseEnds(s, Panicked, s')
    case CallCloser(Returns(r)) =>
      ph.Broadcast? && ph.todo != [] &&
      (match r
       case Nil => CloseAt(s, Broadcast(ph.todo[1..]), s')
       case Plain => CloseEnds(s, HandlerFailed, s')
       case Flagged(_, stopped) => CloseAt(s, if stopped then CloseOut else Broadcast(ph.todo[1..]), s'))
    case LastCloser => CloseAt(s, CloseOut, s')
    case RangeBegin =>
      && ph.Broadcast? && ph.todo != []
      && s' == s.(lock := s'.lock) && s'.lock.WriteLocked? && s'.lock.owner == s.lock.owner
      && s'.lock.phase.Ranging? && s'.lock.phase.todo == ph.todo[1..] && s'.lock.phase.must == s.redis.Keys
      && s'.lock.phase.visited == {} && s'.lock.phase.at == Pick && s'.lock.phase.start.count == |s.readers|
      && (forall i: nat :: i in s'.lock.phase.start.launching <==> i < |s.readers| && s.readers[i].pc == Launched)
    case RangePick(key) =>
      ph.Ranging? && key in s.redis && CloseAt(s, ph.(visited := ph.visited + {key}, at := Check(s.redis[key])), s')
    case RangeCheck =>
      ph.Ranging? && ph.at.Check? && ph.at.j < |s.readers| &&
      CloseAt(s, ph.(at := if s.readers[ph.at.j].state == RP.Closed then Pick else RangeStep.Set(ph.at.j)), s')
    case RangeSet =>
      && ph.Ranging? && ph.at.Set? && ph.at.j < |s.readers|
      && s' == s.(readers := s'.readers, lock := WriteLocked(s.lock.owner, ph.(at := Pick)))
      && ClosesAt(s, ph.at.j, s'.readers)
    case RangeEnd =>
      ph.Ranging? && s' == s.(lock := WriteLocked(s.lock.owner, Broadcast(ph.todo)),
                              hist := s.hist.(ranged := Some(ph.start)))
    case CloseOutgoing =>
      if s.outq.closed then CloseEnds(s, Panicked, s')
      else s' == s.(outq := s.outq.(closed := true), lock := WriteLocked(s.lock.owner, CloseIn))
    case CloseIncoming =>
      if s.inq.closed then CloseEnds(s, Panicked, s')
      else s' == s.(inq := s.inq.(closed := true), lock := WriteLocked(s.lock.owner, ClosePhase.CloseSocket))
    case CloseConn(ok) => CloseEnds(s, TornDown(ok), s')
  }

  /** Close, 696-705, called from outside. */
  ghost predicate OutFlow(s: State, n: nat, x: OutStep, s': State)
    requires n < |s.outs|
  {
    match x
    case OutCheck => s' == s.(outs := s.outs[n := if s.state == Closed then OutDone else CloseWrite])
    case OutWrite(ok) => s' == s.(outs := s.outs[n := if ok then OutCall else OutDone])
    case OutClose => EntersFlow(s, Outsider(n), s')
  }

  /** A reader, reader.go 63-155, with SendData (subscription.go 53-64, connection.go
      117) and Close. */
  ghost predicate ReaderFlow(s: State, i: nat, x: ReaderStep, s': State)
    requires i < |s.readers|
  {
    var r := s.readers[i];
    match x
    case SelfClose => EntersFlow(s, ReaderThread(i), s')
    case SendStep =>
      && r.pc.SendData?
      && if s.outq.closed then s' == s.(crashed := true)
         else
           && s' == s.(readers := s.readers[i := r.(pc := ReaderPc.Loop, sent := r.sent + [r.pc.result])],
                       outq := s'.outq)
           && Puts(s.outq, Data(i, r.sub.id, r.pc.result), s'.outq)
    case _ =>
      && s' == s.(readers := s'.readers, crashed := x == LoadConn && !r.pubSub)
      && i < |s'.readers| && s'.readers == s.readers[i := s'.readers[i]]
      && ReaderMoves(r, x, s.state == Closed, s'.readers[i])
  }

  /** What its own step makes of a reader; 97 reads whether the connection is closed. */
  ghost predicate ReaderMoves(r: Reader, x: ReaderStep, closed: bool, r': Reader) {
    match x
    case SetRunning => r' == r.(state := RP.Running, reopened := r.state == RP.Closed, pc := Top)
    case TopCheck => r' == r.(pc := if r.state == RP.Closed then ReaderDone else Dial)
    case DialStep(true) => r' == r.(pc := ReaderPc.Subscribe)
    case DialStep(false) => r' == r.(pc := Top, attempts := r.attempts + [RP.DialFailed])
    case SubscribeStep(true) =>
      r' == r.(topicsLen := |r.topics|, errors := 0, pubSub := true, pc := ReaderPc.Loop,
               attempts := r.attempts + [RP.SubscribeOk])
    case SubscribeStep(false) =>
      r' == r.(topicsLen := |r.topics|, errors := r.errors + 1, pc := if r.errors >= 3 then SelfCheck else Top,
               attempts := r.attempts + [RP.SubscribeFailed])
    case LoopCheck => r' == r.(pc := if r.state == RP.Closed then Top else Receive)
    case LoadConn => r' == if r.pubSub then r.(pc := Waiting) else r
    case ReceiveStep(Failure) => r' == r.(pc := Top)
    case ReceiveStep(Incoming(m)) =>
      r' == r.(received := r.received + [m], pc := if m.marshals then ReaderPc.SendData(m.result) else ReaderPc.Loop)
    case ReceiveStep(_) => r' == r.(pc := ReaderPc.Loop)
    case SelfCheckStep =>
      r' == if closed then r.(pc := Top, missed := r.missed || r.state != RP.Closed) else r.(pc := SelfWrite)
    case SelfWriteStep(ok) =>
      r' == if ok then r.(pc := SelfCall) else r.(pc := Top, missed := r.missed || r.state != RP.Closed)
    case _ => true
  }

  ghost predicate EnvFlow(s: State, x: EnvStep, s': State) {
    match x
    case AddHandler(kind) => s' == s.(handlers := s.handlers + [kind])
    case SpawnCloser => s' == s.(outs := s.outs + [CloseCheck])
    case OutsideSend => s' == s.(outq := s'.outq) && Puts(s.outq, Outside, s'.outq)
  }

  ghost predicate Does(s: State, a: Step, s': State)
    requires Can(s, a)
  {
    match a
    case ReadPumpStep(x) => ReadFlow(s, x, s')
    case SelectLoop(x) => SelectFlow(s, x, s')
    case InitStage(x) => InitFlow(s, x, s')
    case StartStage(x) => StartFlow(s, x, s')
    case StopStage(x) => StopFlow(s, x, s')
    case LeaveStage(x) => LeaveFlow(s, x, s')
    case InsideClose(x) => CloseFlow(s, x, s')
    case OutsiderStep(n, x) => OutFlow(s, n, x, s')
    case RedisReaderStep(i, x) => ReaderFlow(s, i, x, s')
    case EnvironmentStep(x) => EnvFlow(s, x, s')
  }

  lemma Limits()
    ensures CAPACITY == 10 && RP.MAX_SUBSCRIPTION_ERRORS == 3 && RP.FATAL_FAILURES == 4
  {}

  /** NewConn (connection.go 55-70), with nobody else around yet. */
  lemma NewConnIs(bad: bool)
    ensures var s := Start0(bad);
            && s.badTicker == bad && s.state == Undefined && s.lock == Free && !s.shutdown && !s.crashed
            && s.inq == Chan([], false, [], []) && s.outq == Chan([], false, [], [])
            && s.handlers == [] && s.subs == map[] && s.redis == map[] && s.readers == [] && s.outs == []
            && s.read == SetInitializing && s.proc == Boot && s.results == []
            && s.hist == History(0, 0, 0, false, false, None)
  {}

  // ---------------------------------------------------------------------------
  // The machine does exactly that
  // ---------------------------------------------------------------------------

  lemma ReadCans(s: State, x: ReadStep)
    ensures DoRead(s, x).Some? <==> ReadCan(s, x)
  {
    match x
    case ReadSetState =>
    case ReadCheck =>
    case ReadGot(m) =>
    case ReadPeerClose =>
    case ReadPanics =>
    case ReadFails(e) =>
    case ReadPut =>
    case ReadClose =>
  }

  lemma SelectCans(s: State, x: SelectStep)
    ensures DoSelect(s, x).Some? <==> SelectCan(s, x)
  {
    match x
    case MakeTicker =>
    case SeeShutdown =>
    case TakeIn =>
    case TakeOut =>
    case Ping(ok) =>
  }

  lemma InitCans(s: State, x: InitStep)
    ensures DoInit(s, x).Some? <==> InitCan(s, x)
  {
    match x
    case CallHandler(answer) =>
    case SkipHandler =>
    case EndCalls =>
    case ConnErrChecked =>
    case ConnErrSent =>
    case SendEof =>
    case SetEstablished =>
    case SendAck =>
  }

  lemma StartCans(s: State, x: StartStep)
    ensures DoStart(s, x).Some? <==> StartCan(s, x)
  {
    match x
    case CheckEstablished =>
    case Unmarshal =>
    case OpErrChecked(marshals) =>
    case OpErrSent =>
    case ValidateStart(calls) =>
    case CallSubHandler(answer) =>
    case RedisStart(fields) => if RP.StartTopics(fields).None? {} else {}
    case RedisStartPanics =>
    case EndSubCalls =>
  }

  lemma StopCans(s: State, x: StopStep)
    ensures DoStop(s, x).Some? <==> StopCan(s, x)
  {
    match x
    case LoadStop(calls) =>
    case CallStopHandler(answer) =>
    case RedisStop =>
    case ReaderCheck =>
    case ReaderSet =>
    case EndStopCalls =>
  }

  lemma LeaveCans(s: State, x: LeaveStep)
    ensures DoLeave(s, x).Some? <==> LeaveCan(s, x)
  {
    match x
    case ProcClose =>
    case CallPanicHandler(answer) =>
    case SkipPanicHandler =>
    case EndPanicCalls =>
    case CheckPanicState =>
    case SendPanicEof =>
  }

  lemma CloseCans(s: State, x: CloseStep)
    ensures DoClose(s, x).Some? <==> CloseCan(s, x)
  {
    if s.lock.WriteLocked? {
      match s.lock.phase
      case Broadcast(todo) =>
        match x {
          case CallCloser(answer) =>
          case LastCloser =>
          case RangeBegin =>
          case _ =>
        }
      case Ranging(_, _, _, _, _) =>
        match x {
          case RangePick(key) =>
          case RangeCheck =>
          case RangeSet =>
          case RangeEnd =>
          case _ =>
        }
      case _ =>
    }
  }

  lemma OutCans(s: State, n: nat, x: OutStep)
    ensures n < |s.outs| && DoOut(s, n, x).Some? <==> OutCan(s, n, x)
  {
    match x
    case OutCheck =>
    case OutWrite(ok) =>
    case OutClose =>
  }

  lemma ReaderCans(s: State, i: nat, x: ReaderStep)
    ensures i < |s.readers| && DoReader(s, i, x).Some? <==> ReaderCan(s, i, x)
  {
    match x
    case SetRunning =>
    case TopCheck =>
    case DialStep(ok) =>
    case SubscribeStep(ok) =>
    case LoopCheck =>
    case LoadConn =>
    case ReceiveStep(e) =>
    case SendStep =>
    case SelfCheckStep =>
    case SelfWriteStep(ok) =>
    case SelfClose =>
  }

  lemma EnvCans(s: State, x: EnvStep)
    ensures DoEnv(s, x).Some? <==> EnvCan(s, x)
  {
    match x
    case AddHandler(k) =>
    case SpawnCloser =>
    case OutsideSend =>
  }

  /** A step can be taken exactly when the goroutine is at its line and, for a lock or a
      send, the lock is free or there is room. */
  lemma CanExactly(s: State, a: Step)
    ensures Do(s, a).Some? <==> Can(s, a)
  {
    match a
    case ReadPumpStep(x) => ReadCans(s, x);
    case SelectLoop(x) => SelectCans(s, x);
    case InitStage(x) => InitCans(s, x);
    case StartStage(x) => StartCans(s, x);
    case StopStage(x) => StopCans(s, x);
    case LeaveStage(x) => LeaveCans(s, x);
    case InsideClose(x) => CloseCans(s, x);
    case OutsiderStep(n, x) => OutCans(s, n, x);
    case RedisReaderStep(i, x) => ReaderCans(s, i, x);
    case EnvironmentStep(x) => EnvCans(s, x);
  }

  lemma ReturnFlows(s: State, who: Tid, res: CloseResult)
    requires !s.crashed && s.lock.Free? && s.state == Closed && MayReturn(s, who)
    ensures ReturnsTo(s, who, res, Returned(s, who, res))
  {
    match who
    case ReadPump =>
      if s.read.site.LeaveRead? {} else {
        match res
        case Refused =>
        case TornDown(ok) =>
        case HandlerFailed =>
        case Panicked =>
      }
    case Process => if s.proc.psite.FromStop? {} else {}
    case Outsider(n) =>
    case ReaderThread(i) =>
  }

  predicate MayReturn(s: State, who: Tid) {
    match who
    case ReadPump => s.read.CallClose? || s.read.InClose?
    case Process => s.proc.ProcCall? || s.proc.ProcIn?
    case Outsider(n) => n < |s.outs|
    case ReaderThread(i) => i < |s.readers|
  }

  predicate AtCall(s: State, who: Tid) {
    match who
    case ReadPump => s.read.CallClose?
    case Process => s.proc.ProcCall?
    case Outsider(n) => n < |s.outs|
    case ReaderThread(i) => i < |s.readers|
  }

  lemma EntryFlows(s: State, who: Tid)
    requires !s.crashed && s.lock.Free? && AtCall(s, who)
    ensures EntersFlow(s, who, Acquire(s, who))
  {
    if s.state == Closed {
      ReturnFlows(s, who, Refused);
    } else if s.shutdown {
      ReturnFlows(s.(state := Closed, hist := s.hist.(passes := s.hist.passes + 1)), who, Panicked);
    } else {
    }
  }

  lemma ReadFlows(s: State, x: ReadStep, s': State)
    requires !s.crashed && DoRead(s, x) == Some(s') && ReadCan(s, x)
    ensures ReadFlow(s, x, s')
  {
    match x
    case ReadSetState =>
    case ReadCheck =>
    case ReadGot(m) =>
    case ReadPeerClose =>
    case ReadPanics =>
    case ReadFails(e) =>
    case ReadPut => if s.inq.closed {} else {}
    case ReadClose => EntryFlows(s, ReadPump);
  }

  lemma SelectFlows(s: State, x: SelectStep, s': State)
    requires DoSelect(s, x) == Some(s') && SelectCan(s, x)
    ensures SelectFlow(s, x, s')
  {
    match x
    case MakeTicker =>
    case SeeShutdown =>
    case TakeIn => if s.inq.buf == [] {} else { TakeFlows(s, s'); }
    case TakeOut =>
    case Ping(ok) =>
  }

  lemma TakeFlows(s: State, s': State)
    requires DoSelect(s, TakeIn) == Some(s') && s.inq.buf != [] && SelectCan(s, TakeIn)
    ensures SelectFlow(s, TakeIn, s')
  {
    match s.inq.buf[0]
    case Stop(EmptyStop) =>
    case Stop(BadStop) =>
    case Stop(StopBody(id)) =>
    case _ =>
  }

  lemma InitFlows(s: State, x: InitStep, s': State)
    requires DoInit(s, x) == Some(s') && InitCan(s, x)
    ensures InitFlow(s, x, s')
  {
    match x
    case CallHandler(answer) => if answer.Panics? {} else {}
    case SkipHandler =>
    case EndCalls =>
    case ConnErrChecked =>
    case ConnErrSent =>
    case SendEof =>
    case SetEstablished =>
    case SendAck =>
  }

  lemma ValidateFlows(s: State, calls: Answer, s': State)
    requires DoStart(s, ValidateStart(calls)) == Some(s') && StartCan(s, ValidateStart(calls))
    ensures StartFlow(s, ValidateStart(calls), s')
  {
    if calls.Panics? {} else if Accepts(s.proc.id, s.proc.start) {} else {}
  }

  lemma RedisStartFlows(s: State, fields: seq<RP.FieldOutcome>, s': State)
    requires DoStart(s, RedisStart(fields)) == Some(s') && StartCan(s, RedisStart(fields))
    ensures RedisStartFlow(s, fields, s')
  {
    TopicsAreFirstOccurrences(RP.Requests(fields));
    assert forall k :: 0 <= k < |fields| ==> fields[k] in fields;
    if RP.StartTopics(fields).None? {} else {}
  }

  lemma StartFlows(s: State, x: StartStep, s': State)
    requires DoStart(s, x) == Some(s') && StartCan(s, x)
    ensures StartFlow(s, x, s')
  {
    match x
    case CheckEstablished =>
    case Unmarshal =>
    case OpErrChecked(marshals) =>
    case OpErrSent =>
    case ValidateStart(calls) => ValidateFlows(s, calls, s');
    case CallSubHandler(answer) =>
    case RedisStart(fields) => RedisStartFlows(s, fields, s');
    case RedisStartPanics =>
    case EndSubCalls =>
  }

  lemma StopFlows(s: State, x: StopStep, s': State)
    requires DoStop(s, x) == Some(s') && StopCan(s, x)
    ensures StopFlow(s, x, s')
  {
    match x
    case LoadStop(calls) =>
    case CallStopHandler(answer) =>
    case RedisStop =>
    case ReaderCheck =>
    case ReaderSet =>
    case EndStopCalls =>
  }

  lemma LeaveFlows(s: State, x: LeaveStep, s': State)
    requires !s.crashed && DoLeave(s, x) == Some(s') && LeaveCan(s, x)
    ensures LeaveFlow(s, x, s')
  {
    match x
    case ProcClose => EntryFlows(s, Process);
    case CallPanicHandler(answer) =>
    case SkipPanicHandler =>
    case EndPanicCalls =>
    case CheckPanicState =>
    case SendPanicEof =>
  }

  lemma EndFlows(s: State, res: CloseResult)
    requires !s.crashed && TeardownProgress(s) && s.lock.WriteLocked?
    ensures CloseEnds(s, res, Unlock(s, res))
  {
    ReturnFlows(s.(lock := Free), s.lock.owner, res);
  }

  lemma CallCloserFlows(s: State, todo: seq<HandlerKind>, answer: Answer, s': State)
    requires !s.crashed && TeardownProgress(s) && s.lock.WriteLocked? && s.lock.phase == Broadcast(todo)
    requires DoBroadcast(s, todo, CallCloser(answer)) == Some(s') && CloseCan(s, CallCloser(answer))
    ensures CloseFlow(s, CallCloser(answer), s')
  {
    if answer.Panics? { EndFlows(s, Panicked); }
    else if answer.result.Plain? { EndFlows(s, HandlerFailed); }
    else {}
  }

  lemma RangeFlows(s: State, x: CloseStep, s': State)
    requires s.lock.WriteLocked? && s.lock.phase.Ranging? && DoRange(s, s.lock.phase, x) == Some(s') && CloseCan(s, x)
    ensures CloseFlow(s, x, s')
  {
    match x
    case RangePick(key) =>
    case RangeCheck =>
    case RangeSet =>
    case RangeEnd =>
    case _ =>
  }

  lemma CloseFlows(s: State, x: CloseStep, s': State)
    requires !s.crashed && TeardownProgress(s) && DoClose(s, x) == Some(s') && CloseCan(s, x)
    ensures CloseFlow(s, x, s')
  {
    match s.lock.phase
    case Broadcast(todo) =>
      match x {
        case CallCloser(answer) => CallCloserFlows(s, todo, answer, s');
        case LastCloser =>
        case RangeBegin =>
        case _ =>
      }
    case Ranging(_, _, _, _, _) => RangeFlows(s, x, s');
    case CloseOut => if s.outq.closed { EndFlows(s, Panicked); }
    case CloseIn => if s.inq.closed { EndFlows(s, Panicked); }
    case CloseSocket => EndFlows(s, TornDown(x.ok));
  }

  lemma OutFlows(s: State, n: nat, x: OutStep, s': State)
    requires !s.crashed && n < |s.outs| && DoOut(s, n, x) == Some(s')
    ensures OutFlow(s, n, x, s')
  {
    match x
    case OutCheck =>
    case OutWrite(ok) =>
    case OutClose => EntryFlows(s, Outsider(n));
  }

  lemma NextMoves(r: Reader, x: ReaderStep, closed: bool)
    requires !x.SendStep? && !x.SelfClose?
    ensures ReaderMoves(r, x, closed, NextReader(r, x, closed))
  {
    match x
    case SetRunning =>
    case TopCheck =>
    case DialStep(ok) =>
    case SubscribeStep(ok) =>
    case LoopCheck =>
    case LoadConn =>
    case ReceiveStep(e) => match e { case Incoming(m) => case Failure => case _ => }
    case SelfCheckStep =>
    case SelfWriteStep(ok) =>
    case _ =>
  }

  lemma ReaderFlows(s: State, i: nat, x: ReaderStep, s': State)
    requires !s.crashed && i < |s.readers| && DoReader(s, i, x) == Some(s')
    ensures ReaderFlow(s, i, x, s')
  {
    if x.SelfClose? {
      EntryFlows(s, ReaderThread(i));
    } else if x.SendStep? {
      if s.outq.closed {} else {}
    } else {
      NextMoves(s.readers[i], x, s.state == Closed);
    }
  }

  lemma EnvFlows(s: State, x: EnvStep, s': State)
    requires DoEnv(s, x) == Some(s')
    ensures EnvFlow(s, x, s')
  {
    match x
    case AddHandler(k) =>
    case SpawnCloser =>
    case OutsideSend =>
  }

  /** In a reachable state the machine takes a step exactly when the sources allow it, and
      the step has exactly the effects it has there. */
  lemma StepsAreFlow(s: State, a: Step)
    requires Reachable(s)
    ensures Do(s, a).Some? <==> Can(s, a)
    ensures Can(s, a) ==> Does(s, a, Do(s, a).value)
  {
    Invariants(s);
    CanExactly(s, a);
    if Can(s, a) { DoesIt(s, a, Do(s, a).value); }
  }

  lemma DoesIt(s: State, a: Step, s': State)
    requires TeardownProgress(s) && Do(s, a) == Some(s') && Can(s, a)
    ensures Does(s, a, s')
  {
    match a
    case ReadPumpStep(x) => ReadFlows(s, x, s');
    case SelectLoop(x) => SelectFlows(s, x, s');
    case InitStage(x) => InitFlows(s, x, s');
    case StartStage(x) => StartFlows(s, x, s');
    case StopStage(x) => StopFlows(s, x, s');
    case LeaveStage(x) => LeaveFlows(s, x, s');
    case InsideClose(x) => CloseFlows(s, x, s');
    case OutsiderStep(n, x) => OutFlows(s, n, x, s');
    case RedisReaderStep(i, x) => ReaderFlows(s, i, x, s');
    case EnvironmentStep(x) => EnvFlows(s, x, s');
  }
}

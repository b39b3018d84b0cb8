/** The connection and its Redis readers as an interleaved step machine
    (connection.go, redis/handler.go, redis/reader.go).

    A step is what one goroutine does between two scheduling points: taking a
    lock, a channel operation, one handler call, one library call. `Do` gives the
    state after a step, or None when the goroutine cannot take it, in particular
    when it is blocked. A run is any sequence of steps, so it ranges over all
    interleavings and over all outcomes of handlers, of the socket and of Redis. */
module Machine {
  import opened Options
  import opened Ast
  import opened Subscriptions
  import opened Subscribers
  import opened Channels
  import opened Dispatch
  import RP = RedisProtocol

  // ---------------------------------------------------------------------------
  // Messages
  // ---------------------------------------------------------------------------

  datatype ConnState = Undefined | Initializing | Established | Closed

  // A start payload: it unmarshals or not; the query parses or not; the document
  // is valid or not. The library's answers ride along with the query they are about.
  datatype StartBody = BadStart | StartBody(query: string, parsed: Option<Document>, valid: bool)
  datatype StopBody = EmptyStop | BadStop | StopBody(id: string)

  // EOF is the address of operationMessageEOF: no message read from the peer is it.
  datatype InMsg =
    | Init | Terminate | Start(id: string, start: StartBody) | Stop(stop: StopBody) | Other | EOF

  // Data carries the index of the reader goroutine that produced it. Outside is a
  // message of an outside caller of SendData.
  datatype OutMsg =
    | Ack | ConnectionError | OperationErrors(id: string)
    | Data(reader: nat, id: string, result: int) | Outside

  // A registered handler: the Redis subscription handler or any other.
  datatype HandlerKind = User | Redis

  // What a handler call comes to.
  datatype Answer = Returns(result: HandlerResult) | Panics

  // ---------------------------------------------------------------------------
  // Goroutines
  // ---------------------------------------------------------------------------

  datatype Tid = ReadPump | Process | Outsider(n: nat) | ReaderThread(i: nat)

  // Where readPump calls close: from ReadJSON through closeHandler, or deferred.
  datatype ReadSite = CloseHandler | LeaveRead(panicking: bool)

  datatype ReadPc =
    | SetInitializing                 // 445
    | CheckState                      // 457
    | Read                            // 461
    | ReadFailed                      // 462: ReadJSON returned an error of some kind
    | Put(m: InMsg)                   // 472, 478, 489
    | CallClose(site: ReadSite)       // before close takes the lock
    | InClose(site: ReadSite)         // inside close
    | ReadDone

  datatype ProcSite = FromStop | LeaveLoop(panicking: bool)

  datatype ProcPc =
    | Boot                                         // 496
    | Select                                       // 515
    | InitCalls(todo: seq<HandlerKind>)            // 566
    | ConnErrCheck                                 // 140
    | ConnErrSend                                  // 153, read lock held
    | EofSend                                      // 599, 637
    | Establish                                    // 605
    | AckSend                                      // 610
    | TerminateCalls(todo: seq<HandlerKind>)       // 621
    | StartCheck(id: string, start: StartBody)     // 641
    | StartUnmarshal(id: string, start: StartBody) // 650
    | OpErrCheck(id: string)                       // 162
    | OpErrSend(id: string)                        // 175, read lock held
    | Validate(id: string, start: StartBody)       // 660
    | SubStartCalls(sub: Subscription, todo: seq<HandlerKind>)    // 383
    | StopLoad(id: string)                                        // 671
    | SubStopCalls(sub: Subscription, todo: seq<HandlerKind>)     // 422
    | StopCheck(sub: Subscription, todo: seq<HandlerKind>, j: nat) // reader.go 158
    | StopSet(sub: Subscription, todo: seq<HandlerKind>, j: nat)   // reader.go 162
    | ProcCall(psite: ProcSite)                    // 506, 674
    | ProcIn(psite: ProcSite)
    | PanicCalls(todo: seq<HandlerKind>)           // 274
    | PanicCheck                                   // 294
    | PanicEofSend                                 // 298
    | ProcDone

  datatype OutPc = CloseCheck /* 697 */ | CloseWrite /* 700 */ | OutCall | OutIn | OutDone

  datatype ReaderPc =
    | Launched     // reader.go 63
    | Top          // 64
    | Dial         // 70
    | Subscribe    // 90
    | Loop         // 108
    | Receive      // 118: before pubSubConn is loaded
    | Waiting      // 118: inside Receive
    | SendData(result: int)  // 140, connection.go 118
    | SelfCheck    // 97, connection.go 697
    | SelfWrite    // connection.go 700
    | SelfCall | SelfIn
    | ReaderDone

  // One subscriptionRedisReader with its goroutine. The fields from wasClosed on
  // record what happened to it; the program never reads them.
  datatype Reader = Reader(
    sub: Subscription, topics: seq<Topic>,
    state: RP.ReaderState, pubSub: bool, topicsLen: nat, errors: nat, pc: ReaderPc,
    wasClosed: bool,      // its close executed line 162
    reopened: bool,       // line 63 ran after its close
    missed: bool,         // its own Conn.Close returned without having closed it
    attempts: seq<RP.Attempt>, received: seq<RP.RedisMessage>, sent: seq<int>)

  // ---------------------------------------------------------------------------
  // close() and the lock
  // ---------------------------------------------------------------------------

  // handler.go 95: Range picks a key, then closes the reader stored at it.
  datatype RangeStep = Pick | Check(j: nat) | Set(j: nat)

  // Readers stored before a Range began, and those of them yet to run line 63.
  datatype RangeStart = RangeStart(count: nat, launching: set<nat>)

  datatype ClosePhase =
    | Broadcast(todo: seq<HandlerKind>)     // 197
    | Ranging(todo: seq<HandlerKind>, start: RangeStart, must: set<string>, visited: set<string>, at: RangeStep)
    | CloseOut                              // 216
    | CloseIn                               // 217
    | CloseSocket                           // 219

  // stateMutex. Only processMessages holds the read lock across a blocking
  // operation; only close holds the write lock across one.
  datatype Lock = Free | ReadLocked | WriteLocked(owner: Tid, phase: ClosePhase)

  datatype CloseResult = Refused | TornDown(ok: bool) | HandlerFailed | Panicked
  datatype CloseReturn = CloseReturn(who: Tid, leaving: bool, result: CloseResult)

  datatype State = State(
    badTicker: bool,                  // NewTicker panics on the configured PongWait
    state: ConnState, lock: Lock, shutdown: bool,
    inq: Chan<InMsg>, outq: Chan<OutMsg>,
    handlers: seq<HandlerKind>,
    subs: map<string, Subscription>, origin: map<string, StartBody>,
    redis: map<string, nat>, readers: seq<Reader>,
    read: ReadPc, proc: ProcPc, outs: seq<OutPc>,
    crashed: bool,                    // an unrecovered panic ended the process
    results: seq<CloseReturn>,        // results of close, in order
    hist: History)

  // Bookkeeping that no step depends on, like `results`.
  datatype History = History(
    passes: nat,                      // times close got past its guard
    reopens: nat,                     // setState calls made while Closed
    inits: nat,                       // connection_init successes
    ticker: bool,                     // the ping ticker exists
    lateInit: bool,                   // 445 ran after processMessages had left its loop
    ranged: Option<RangeStart>)       // the Redis handler's close completed

  function Start0(badTicker: bool): State {
    State(badTicker, Undefined, Free, false, Open(), Open(), [], map[], map[], map[], [],
          SetInitializing, Boot, [], false, [],
          History(0, 0, 0, false, false, None))
  }

  // ---------------------------------------------------------------------------
  // Entering and leaving close
  // ---------------------------------------------------------------------------

  /** readPump after close: an error makes ReadJSON fail, a panic unwinds, and the
      deferred call ends the goroutine. */
  function ReadAfter(pc: ReadPc, res: CloseResult): ReadPc {
    if !(pc.CallClose? || pc.InClose?) then pc
    else if pc.site.LeaveRead? then ReadDone
    else match res
      case Refused => Put(EOF)
      case TornDown(ok) => if ok then CallClose(LeaveRead(false)) else ReadFailed
      case HandlerFailed => ReadFailed
      case Panicked => CallClose(LeaveRead(true))
  }

  /** Nothing recovers a panic of readPump once its deferred close is done. */
  predicate ReadCrash(pc: ReadPc, res: CloseResult) {
    (pc.CallClose? || pc.InClose?) && pc.site.LeaveRead? && (pc.site.panicking || res.Panicked?)
  }

  function ProcAfter(pc: ProcPc, handlers: seq<HandlerKind>, res: CloseResult): ProcPc {
    if !(pc.ProcCall? || pc.ProcIn?) then pc
    else if pc.psite.FromStop? then (if res.Panicked? then ProcCall(LeaveLoop(true)) else Select)
    else if pc.psite.panicking || res.Panicked? then PanicCalls(handlers)
    else ProcDone
  }

  predicate Leaving(s: State, who: Tid) {
    match who
    case ReadPump => (s.read.CallClose? || s.read.InClose?) && s.read.site.LeaveRead?
    case Process => (s.proc.ProcCall? || s.proc.ProcIn?) && s.proc.psite.LeaveLoop?
    case _ => false
  }

  function GiveUp(r: Reader): Reader {
    r.(pc := Top, missed := r.missed || r.state != RP.Closed)
  }

  /** What close's return does to the goroutine that called it. */
  function Returned(s: State, who: Tid, res: CloseResult): State {
    s.(read := if who.ReadPump? then ReadAfter(s.read, res) else s.read,
       proc := if who.Process? then ProcAfter(s.proc, s.handlers, res) else s.proc,
       outs := if who.Outsider? && who.n < |s.outs| then s.outs[who.n := OutDone] else s.outs,
       readers := if who.ReaderThread? && who.i < |s.readers|
                  then s.readers[who.i := GiveUp(s.readers[who.i])] else s.readers,
       crashed := s.crashed || (who.ReadPump? && ReadCrash(s.read, res)) || (who.ReaderThread? && res.Panicked?),
       results := s.results + [CloseReturn(who, Leaving(s, who), res)])
  }

  function Entered(s: State, who: Tid): State {
    s.(read := if who.ReadPump? && s.read.CallClose? then InClose(s.read.site) else s.read,
       proc := if who.Process? && s.proc.ProcCall? then ProcIn(s.proc.psite) else s.proc,
       outs := if who.Outsider? && who.n < |s.outs| then s.outs[who.n := OutIn] else s.outs,
       readers := if who.ReaderThread? && who.i < |s.readers|
                  then s.readers[who.i := s.readers[who.i].(pc := SelfIn)] else s.readers)
  }

  function WithReader(s: State, i: nat, r: Reader): State
    requires i < |s.readers|
  {
    s.(readers := s.readers[i := r])
  }

  /** connection.go 184-194: who passes the guard unless the state is Closed. */
  function Acquire(s: State, who: Tid): State {
    if s.state == Closed then Returned(s, who, Refused)
    else if s.shutdown then
      // closing the closed shutdown channel panics; the deferred unlock runs
      Returned(s.(state := Closed, hist := s.hist.(passes := s.hist.passes + 1)), who, Panicked)
    else
      Entered(s.(state := Closed, shutdown := true, lock := WriteLocked(who, Broadcast(s.handlers)),
                 hist := s.hist.(passes := s.hist.passes + 1)), who)
  }

  // ---------------------------------------------------------------------------
  // Steps inside close
  // ---------------------------------------------------------------------------

  datatype CloseStep =
    | CallCloser(a: Answer)    // a user handler, 202
    | LastCloser               // 211
    | RangeBegin | RangePick(key: string) | RangeCheck | RangeSet | RangeEnd   // the Redis handler
    | CloseOutgoing | CloseIncoming | CloseConn(ok: bool)

  function ClosedReader(r: Reader): Reader {
    r.(state := RP.Closed, pubSub := false, wasClosed := true)
  }

  function Launching(readers: seq<Reader>): set<nat> {
    set i: nat | i < |readers| && readers[i].pc.Launched?
  }

  function At(s: State, phase: ClosePhase): State
    requires s.lock.WriteLocked?
  {
    s.(lock := WriteLocked(s.lock.owner, phase))
  }

  function Unlock(s: State, res: CloseResult): State
    requires s.lock.WriteLocked?
  {
    Returned(s.(lock := Free), s.lock.owner, res)
  }

  /** The close handler called returned err: 203-210. */
  function AfterCloser(s: State, todo: seq<HandlerKind>, res: HandlerResult): State
    requires s.lock.WriteLocked? && todo != []
  {
    if res.Plain? then Unlock(s, HandlerFailed)
    else At(s, if Decisive(CloseLoop, res) then CloseOut else Broadcast(todo[1..]))
  }

  function DoBroadcast(s: State, todo: seq<HandlerKind>, a: CloseStep): Option<State>
    requires s.lock.WriteLocked?
  {
    match a
    case CallCloser(answer) =>
      if todo == [] || !todo[0].User? then None
      else if answer.Panics? then Some(Unlock(s, Panicked))
      else Some(AfterCloser(s, todo, answer.result))
    case LastCloser =>
      if todo == [] then Some(At(s, CloseOut)) else None
    case RangeBegin =>
      if todo != [] && todo[0].Redis? then
        Some(At(s, Ranging(todo[1..], RangeStart(|s.readers|, Launching(s.readers)), s.redis.Keys, {}, Pick)))
      else None
    case _ => None
  }

  function DoRange(s: State, ph: ClosePhase, a: CloseStep): Option<State>
    requires s.lock.WriteLocked? && ph.Ranging?
  {
    match a
    case RangePick(key) =>
      if ph.at.Pick? && key in s.redis && key !in ph.visited then
        Some(At(s, ph.(visited := ph.visited + {key}, at := Check(s.redis[key]))))
      else None
    case RangeCheck =>
      if ph.at.Check? && ph.at.j < |s.readers| then
        Some(At(s, ph.(at := if s.readers[ph.at.j].state == RP.Closed then Pick else Set(ph.at.j))))
      else None
    case RangeSet =>
      if ph.at.Set? && ph.at.j < |s.readers| then
        Some(At(WithReader(s, ph.at.j, ClosedReader(s.readers[ph.at.j])), ph.(at := Pick)))
      else None
    case RangeEnd =>
      if ph.at.Pick? && ph.must <= ph.visited then
        Some(At(s.(hist := s.hist.(ranged := Some(ph.start))), Broadcast(ph.todo)))
      else None
    case _ => None
  }

  function DoClose(s: State, a: CloseStep): Option<State> {
    if !s.lock.WriteLocked? then None
    else match s.lock.phase
      case Broadcast(todo) => DoBroadcast(s, todo, a)
      case Ranging(_, _, _, _, _) => DoRange(s, s.lock.phase, a)
      case CloseOut =>
        if !a.CloseOutgoing? then None
        else if s.outq.closed then Some(Unlock(s, Panicked))
        else Some(At(s.(outq := s.outq.Close()), CloseIn))
      case CloseIn =>
        if !a.CloseIncoming? then None
        else if s.inq.closed then Some(Unlock(s, Panicked))
        else Some(At(s.(inq := s.inq.Close()), CloseSocket))
      case CloseSocket =>
        if a.CloseConn? then Some(Unlock(s, TornDown(a.ok))) else None
  }

  // ---------------------------------------------------------------------------
  // setState
  // ---------------------------------------------------------------------------

  /** setState looks at nothing, so it also leaves Closed; this counts when it does. */
  function CountReopen(s: State): nat {
    s.hist.reopens + (if s.state == Closed then 1 else 0)
  }

  predicate Exiting(p: ProcPc) {
    || (p.ProcCall? && p.psite.LeaveLoop?) || (p.ProcIn? && p.psite.LeaveLoop?)
    || AfterClose(p)
  }

  /** processMessages has left its loop and its deferred close has returned. */
  predicate AfterClose(p: ProcPc) {
    p.PanicCalls? || p.PanicCheck? || p.PanicEofSend? || p.ProcDone?
  }

  // ---------------------------------------------------------------------------
  // readPump
  // ---------------------------------------------------------------------------

  // How an error of ReadJSON is classified by the switch at 462.
  datatype ReadError = CloseError | OpError | NetError | OtherError

  datatype ReadStep =
    | ReadSetState | ReadCheck
    | ReadGot(m: InMsg) | ReadPeerClose | ReadFails(e: ReadError)
    | ReadPanics      // a pong handler inside ReadJSON, or nil at 484 for a JSON null
    | ReadPut | ReadClose

  /** 472, 478, 489: on a closed channel the send panics. */
  function AfterPut(q: Chan<InMsg>, m: InMsg): ReadPc {
    if q.closed then CallClose(LeaveRead(true))
    else if m == EOF then CallClose(LeaveRead(false))
    else CheckState
  }

  function SendUnlessClosed<T>(q: Chan<T>, m: T): Chan<T>
    requires q.closed || q.CanSend()
  {
    if q.closed then q else q.Send(m)
  }

  function DoRead(s: State, a: ReadStep): Option<State> {
    match a
    case ReadSetState =>
      if s.read.SetInitializing? && s.lock.Free? then
        Some(s.(read := CheckState, state := Initializing,
                hist := s.hist.(reopens := CountReopen(s), lateInit := AfterClose(s.proc))))
      else None
    case ReadCheck =>
      if s.read.CheckState? && !s.lock.WriteLocked? then
        Some(s.(read := if s.state == Closed then CallClose(LeaveRead(false)) else Read))
      else None
    case ReadGot(m) =>
      if s.read.Read? && m != EOF then Some(s.(read := Put(m))) else None
    case ReadPeerClose =>
      if s.read.Read? then Some(s.(read := CallClose(CloseHandler))) else None
    case ReadPanics =>
      if s.read.Read? then Some(s.(read := CallClose(LeaveRead(true)))) else None
    case ReadFails(e) =>
      if s.read.Read? || s.read.ReadFailed? then
        Some(s.(read := if e.CloseError? || e.OpError? then CallClose(LeaveRead(false)) else Put(EOF)))
      else None
    case ReadPut =>
      if s.read.Put? && (s.inq.closed || s.inq.CanSend()) then
        Some(s.(inq := SendUnlessClosed(s.inq, s.read.m), read := AfterPut(s.inq, s.read.m)))
      else None
    case ReadClose =>
      if s.read.CallClose? && s.lock.Free? then Some(Acquire(s, ReadPump)) else None
  }

  // ---------------------------------------------------------------------------
  // processMessages: the select loop
  // ---------------------------------------------------------------------------

  /** A panic in processMessages: the deferred close comes next. */
  const PANIC: ProcPc := ProcCall(LeaveLoop(true))

  datatype SelectStep = MakeTicker | SeeShutdown | TakeIn | TakeOut | Ping(ok: bool)

  /** Where 522 and the switch of processIncomeMessage go with a message. */
  function Take(m: InMsg, handlers: seq<HandlerKind>): ProcPc {
    match m
    case EOF => ProcCall(LeaveLoop(false))
    case Init => InitCalls(handlers)
    case Terminate => TerminateCalls(handlers)
    case Start(id, start) => StartCheck(id, start)
    case Stop(stop) =>
      (match stop
       case EmptyStop => ProcCall(FromStop)
       case BadStop => PANIC
       case StopBody(id) => StopLoad(id))
    case Other => Select
  }

  function ReceiveIfAny<T(==)>(q: Chan<T>): Chan<T> {
    if q.buf != [] then q.Receive() else q
  }

  function DoSelect(s: State, a: SelectStep): Option<State> {
    match a
    case MakeTicker =>
      if s.proc.Boot? then
        Some(s.(proc := if s.badTicker then PanicCalls(s.handlers) else Select,
                hist := s.hist.(ticker := !s.badTicker)))
      else None
    case SeeShutdown =>
      if s.proc.Select? && s.shutdown then Some(s.(proc := ProcCall(LeaveLoop(false)))) else None
    case TakeIn =>
      if s.proc.Select? && (s.inq.buf != [] || s.inq.closed) then
        // from the drained closed queue comes nil, which 556 dereferences
        Some(s.(inq := ReceiveIfAny(s.inq),
                proc := if s.inq.buf != [] then Take(s.inq.buf[0], s.handlers) else PANIC))
      else None
    case TakeOut =>
      if s.proc.Select? && (s.outq.buf != [] || s.outq.closed) then
        Some(s.(outq := ReceiveIfAny(s.outq)))      // of nil, WriteJSON makes nothing of interest here
      else None
    case Ping(ok) =>
      if s.proc.Select? then Some(s.(proc := if ok then Select else ProcCall(LeaveLoop(false)))) else None
  }

  // ---------------------------------------------------------------------------
  // processMessages: connection_init and connection_terminate
  // ---------------------------------------------------------------------------

  datatype InitStep =
    | CallHandler(a: Answer)          // a user handler in the loop at hand
    | SkipHandler                     // the Redis handler takes no part in these loops
    | EndCalls
    | ConnErrChecked | ConnErrSent    // 143, 153
    | SendEof                         // 599, 637
    | SetEstablished | SendAck        // 605, 610

  predicate HandlersLocked(p: ProcPc) {
    p.InitCalls? || p.ConnErrCheck? || p.ConnErrSend?
  }

  /** The init loop or the terminate loop after a user handler: 573-593, 627-634. */
  function AfterCall(p: ProcPc, a: Answer): ProcPc
    requires (p.InitCalls? || p.TerminateCalls?) && p.todo != []
  {
    if a.Panics? then PANIC
    else if p.TerminateCalls? then
      if Decisive(TerminateLoop, a.result) then EofSend else TerminateCalls(p.todo[1..])
    else if !Decisive(InitLoop, a.result) then InitCalls(p.todo[1..])
    else if a.result.Plain? then ConnErrCheck
    else if a.result.propagationStopped then Establish
    else EofSend
  }

  function DoInit(s: State, a: InitStep): Option<State> {
    match a
    case CallHandler(answer) =>
      if (s.proc.InitCalls? || s.proc.TerminateCalls?) && s.proc.todo != [] && s.proc.todo[0].User? then
        Some(s.(proc := AfterCall(s.proc, answer)))
      else None
    case SkipHandler =>
      if (s.proc.InitCalls? || s.proc.TerminateCalls?) && s.proc.todo != [] && s.proc.todo[0].Redis? then
        Some(s.(proc := if s.proc.InitCalls? then InitCalls(s.proc.todo[1..]) else TerminateCalls(s.proc.todo[1..])))
      else None
    case EndCalls =>
      if (s.proc.InitCalls? || s.proc.TerminateCalls?) && s.proc.todo == [] then
        Some(s.(proc := if s.proc.InitCalls? then Establish else EofSend))
      else None
    case ConnErrChecked =>
      if s.proc.ConnErrCheck? && !s.lock.WriteLocked? then
        Some(s.(proc := if s.state == Closed then EofSend else ConnErrSend,
                lock := if s.state == Closed then s.lock else ReadLocked))
      else None
    case ConnErrSent =>
      if s.proc.ConnErrSend? && (s.outq.closed || s.outq.CanSend()) then
        Some(s.(outq := SendUnlessClosed(s.outq, ConnectionError), lock := Free,
                proc := if s.outq.closed then PANIC else EofSend))
      else None
    case SendEof =>
      if s.proc.EofSend? && (s.inq.closed || s.inq.CanSend()) then
        Some(s.(inq := SendUnlessClosed(s.inq, EOF), proc := if s.inq.closed then PANIC else Select))
      else None
    case SetEstablished =>
      if s.proc.Establish? && s.lock.Free? then
        Some(s.(proc := AckSend, state := Established,
                hist := s.hist.(reopens := CountReopen(s), inits := s.hist.inits + 1)))
      else None
    case SendAck =>
      if s.proc.AckSend? && (s.outq.closed || s.outq.CanSend()) then
        Some(s.(outq := SendUnlessClosed(s.outq, Ack), proc := if s.outq.closed then PANIC else Select))
      else None
  }

  // ---------------------------------------------------------------------------
  // processMessages: start
  // ---------------------------------------------------------------------------

  datatype StartStep =
    | CheckEstablished | Unmarshal              // 641, 650
    | OpErrChecked(marshals: bool) | OpErrSent  // 165, 175
    | ValidateStart(calls: Answer)              // 315-380, with the HandleConnectionStart calls
    | CallSubHandler(a: Answer)                 // 388, a user handler
    | RedisStart(fields: seq<RP.FieldOutcome>)  // 388, the Redis handler
    | RedisStartPanics                          // a Subscribe, or a nil SubscriptionType, at handler.go 54-68
    | EndSubCalls

  /** ValidateSubscription, the parser and the schema all accept (351-372). */
  predicate Accepts(id: string, start: StartBody) {
    id != "" && start.StartBody? && start.query != "" && start.parsed.Some? && start.valid
  }

  function NewSubscription(id: string, start: StartBody): Subscription
    requires Accepts(id, start)
  {
    Subscription(id, start.query, start.parsed, FieldNames(start.parsed.value), true)
  }

  function NewReader(sub: Subscription, topics: seq<Topic>): Reader {
    Reader(sub, topics, RP.Unknown, false, 0, 0, Launched, false, false, false, [], [], [])
  }

  function AfterSubCall(sub: Subscription, todo: seq<HandlerKind>, a: Answer): ProcPc
    requires todo != []
  {
    if a.Panics? then PANIC
    else if Decisive(SubStartLoop, a.result) then Select
    else SubStartCalls(sub, todo[1..])
  }

  function DoStart(s: State, a: StartStep): Option<State> {
    match a
    case CheckEstablished =>
      if s.proc.StartCheck? && !s.lock.WriteLocked? then
        Some(s.(proc := if s.state != Established then PANIC else StartUnmarshal(s.proc.id, s.proc.start)))
      else None
    case Unmarshal =>
      if s.proc.StartUnmarshal? then
        Some(s.(proc := if s.proc.start.BadStart? then OpErrCheck(s.proc.id) else Validate(s.proc.id, s.proc.start)))
      else None
    case OpErrChecked(marshals) =>
      if s.proc.OpErrCheck? && !s.lock.WriteLocked? then
        Some(s.(proc := if s.state == Closed || !marshals then Select else OpErrSend(s.proc.id),
                lock := if s.state == Closed || !marshals then s.lock else ReadLocked))
      else None
    case OpErrSent =>
      if s.proc.OpErrSend? && (s.outq.closed || s.outq.CanSend()) then
        Some(s.(outq := SendUnlessClosed(s.outq, OperationErrors(s.proc.id)), lock := Free,
                proc := if s.outq.closed then PANIC else Select))
      else None
    case ValidateStart(calls) =>
      if s.proc.Validate? && (calls.Panics? || !Accepts(s.proc.id, s.proc.start)) then
        Some(s.(proc := if calls.Panics? then PANIC else Select))
      else if s.proc.Validate? then
        Some(s.(subs := s.subs[s.proc.id := NewSubscription(s.proc.id, s.proc.start)],
                origin := s.origin[s.proc.id := s.proc.start],
                proc := SubStartCalls(NewSubscription(s.proc.id, s.proc.start), s.handlers)))
      else None
    case CallSubHandler(answer) =>
      if s.proc.SubStartCalls? && s.proc.todo != [] && s.proc.todo[0].User? then
        Some(s.(proc := AfterSubCall(s.proc.sub, s.proc.todo, answer)))
      else None
    case RedisStart(fields) =>
      if !(s.proc.SubStartCalls? && s.proc.todo != [] && s.proc.todo[0].Redis?) then None
      else if |fields| != |s.proc.sub.fields| then None
      else if RP.StartTopics(fields).None? then
        Some(s.(proc := SubStartCalls(s.proc.sub, s.proc.todo[1..])))   // the error is only logged
      else
        Some(s.(proc := SubStartCalls(s.proc.sub, s.proc.todo[1..]),
                redis := s.redis[s.proc.sub.id := |s.readers|],
                readers := s.readers + [NewReader(s.proc.sub, RP.StartTopics(fields).value)]))
    case RedisStartPanics =>
      if s.proc.SubStartCalls? && s.proc.todo != [] && s.proc.todo[0].Redis? then Some(s.(proc := PANIC)) else None
    case EndSubCalls =>
      if s.proc.SubStartCalls? && s.proc.todo == [] then Some(s.(proc := Select)) else None
  }

  // ---------------------------------------------------------------------------
  // processMessages: stop
  // ---------------------------------------------------------------------------

  datatype StopStep =
    | LoadStop(calls: Answer)                   // 402-413, with the HandleConnectionStop calls
    | CallStopHandler(a: Answer)                // 427, a user handler
    | RedisStop                                 // handler.go 83
    | ReaderCheck | ReaderSet                   // reader.go 158, 162
    | EndStopCalls

  function AfterStopCall(sub: Subscription, todo: seq<HandlerKind>, a: Answer): ProcPc
    requires todo != []
  {
    if a.Panics? then PANIC
    else if Decisive(SubStopLoop, a.result) then Select
    else SubStopCalls(sub, todo[1..])
  }

  function DoStop(s: State, a: StopStep): Option<State> {
    match a
    case LoadStop(calls) =>
      if s.proc.StopLoad? then
        Some(s.(proc := if calls.Panics? then PANIC
                        else if s.proc.id in s.subs then SubStopCalls(s.subs[s.proc.id], s.handlers)
                        else Select))
      else None
    case CallStopHandler(answer) =>
      if s.proc.SubStopCalls? && s.proc.todo != [] && s.proc.todo[0].User? then
        Some(s.(proc := AfterStopCall(s.proc.sub, s.proc.todo, answer)))
      else None
    case RedisStop =>
      if s.proc.SubStopCalls? && s.proc.todo != [] && s.proc.todo[0].Redis? then
        Some(s.(proc := if s.proc.sub.id in s.redis
                        then StopCheck(s.proc.sub, s.proc.todo[1..], s.redis[s.proc.sub.id])
                        else SubStopCalls(s.proc.sub, s.proc.todo[1..])))
      else None
    case ReaderCheck =>
      if s.proc.StopCheck? && s.proc.j < |s.readers| then
        Some(s.(proc := if s.readers[s.proc.j].state == RP.Closed then SubStopCalls(s.proc.sub, s.proc.todo)
                        else StopSet(s.proc.sub, s.proc.todo, s.proc.j)))
      else None
    case ReaderSet =>
      if s.proc.StopSet? && s.proc.j < |s.readers| then
        Some(s.(readers := s.readers[s.proc.j := ClosedReader(s.readers[s.proc.j])],
                proc := SubStopCalls(s.proc.sub, s.proc.todo)))
      else None
    case EndStopCalls =>
      if s.proc.SubStopCalls? && s.proc.todo == [] then Some(s.(proc := Select)) else None
  }

  // ---------------------------------------------------------------------------
  // processMessages: the deferred close and recover
  // ---------------------------------------------------------------------------

  datatype LeaveStep =
    | ProcClose                                 // 506, 674
    | CallPanicHandler(a: Answer) | SkipPanicHandler | EndPanicCalls   // 274-286
    | CheckPanicState                           // 294
    | SendPanicEof                              // 298

  function DoLeave(s: State, a: LeaveStep): Option<State> {
    match a
    case ProcClose =>
      if s.proc.ProcCall? && s.lock.Free? then Some(Acquire(s, Process)) else None
    case CallPanicHandler(answer) =>
      if s.proc.PanicCalls? && s.proc.todo != [] && s.proc.todo[0].User? then
        Some(s.(proc := if answer.Panics? then ProcDone
                        else if Decisive(RecoverLoop, answer.result) then PanicCheck
                        else PanicCalls(s.proc.todo[1..]),
                crashed := answer.Panics?))
      else None
    case SkipPanicHandler =>
      if s.proc.PanicCalls? && s.proc.todo != [] && s.proc.todo[0].Redis? then
        Some(s.(proc := PanicCalls(s.proc.todo[1..])))
      else None
    case EndPanicCalls =>
      if s.proc.PanicCalls? && s.proc.todo == [] then Some(s.(proc := PanicCheck)) else None
    case CheckPanicState =>
      if s.proc.PanicCheck? && !s.lock.WriteLocked? then
        Some(s.(proc := if s.state == Closed then ProcDone else PanicEofSend))
      else None
    case SendPanicEof =>
      if s.proc.PanicEofSend? && (s.inq.closed || s.inq.CanSend()) then
        Some(s.(inq := SendUnlessClosed(s.inq, EOF), proc := ProcDone, crashed := s.inq.closed))
      else None
  }

  // ---------------------------------------------------------------------------
  // Outside callers of Close
  // ---------------------------------------------------------------------------

  datatype OutStep = OutCheck | OutWrite(ok: bool) | OutClose

  function DoOut(s: State, n: nat, a: OutStep): Option<State>
    requires n < |s.outs|
  {
    match a
    case OutCheck =>
      if s.outs[n].CloseCheck? && !s.lock.WriteLocked? then
        Some(s.(outs := s.outs[n := if s.state == Closed then OutDone else CloseWrite]))
      else None
    case OutWrite(ok) =>
      if s.outs[n].CloseWrite? then
        Some(s.(outs := s.outs[n := if ok then OutCall else OutDone]))
      else None
    case OutClose =>
      if s.outs[n].OutCall? && s.lock.Free? then Some(Acquire(s, Outsider(n))) else None
  }

  // ---------------------------------------------------------------------------
  // Redis readers
  // ---------------------------------------------------------------------------

  datatype ReaderStep =
    | SetRunning | TopCheck | DialStep(ok: bool) | SubscribeStep(ok: bool)
    | LoopCheck | LoadConn | ReceiveStep(e: RP.RedisEvent) | SendStep
    | SelfCheckStep | SelfWriteStep(ok: bool) | SelfClose

  function Subscribed(r: Reader, ok: bool): Reader {
    r.(topicsLen := |r.topics|,
       errors := RP.CounterAfter(r.errors, if ok then RP.SubscribeOk else RP.SubscribeFailed),
       pubSub := ok || r.pubSub,
       pc := if ok then Loop else if RP.GivesUp(r.errors + 1) then SelfCheck else Top,
       attempts := r.attempts + [if ok then RP.SubscribeOk else RP.SubscribeFailed])
  }

  function Received(r: Reader, e: RP.RedisEvent): Reader {
    r.(received := if e.Incoming? then r.received + [e.message] else r.received,
       pc := match e
             case Incoming(m) => if m.marshals then SendData(m.result) else Loop
             case Failure => Top
             case _ => Loop)
  }

  /** The reader after a step; `connClosed` is what Conn.Close reads at 697. */
  function NextReader(r: Reader, a: ReaderStep, connClosed: bool): Reader {
    match a
    case SetRunning => r.(state := RP.Running, reopened := r.state == RP.Closed, pc := Top)
    case TopCheck => r.(pc := if r.state == RP.Closed then ReaderDone else Dial)
    case DialStep(ok) =>
      r.(pc := if ok then Subscribe else Top,
         attempts := if ok then r.attempts else r.attempts + [RP.DialFailed])
    case SubscribeStep(ok) => Subscribed(r, ok)
    case LoopCheck => r.(pc := if r.state == RP.Closed then Top else Receive)
    case LoadConn => if r.pubSub then r.(pc := Waiting) else r
    case ReceiveStep(e) => Received(r, e)
    case SendStep => if r.pc.SendData? then r.(pc := Loop, sent := r.sent + [r.pc.result]) else r
    case SelfCheckStep => if connClosed then GiveUp(r) else r.(pc := SelfWrite)
    case SelfWriteStep(ok) => if ok then r.(pc := SelfCall) else GiveUp(r)
    case SelfClose => r
  }

  /** Is the reader at the point where this step is taken? */
  predicate ReaderAt(r: Reader, a: ReaderStep) {
    match a
    case SetRunning => r.pc.Launched?
    case TopCheck => r.pc.Top?
    case DialStep(_) => r.pc.Dial?
    case SubscribeStep(_) => r.pc.Subscribe?
    case LoopCheck => r.pc.Loop?
    case LoadConn => r.pc.Receive?
    case ReceiveStep(_) => r.pc.Waiting?
    case SendStep => r.pc.SendData?
    case SelfCheckStep => r.pc.SelfCheck?
    case SelfWriteStep(_) => r.pc.SelfWrite?
    case SelfClose => r.pc.SelfCall?
  }

  function DoReader(s: State, i: nat, a: ReaderStep): Option<State>
    requires i < |s.readers|
  {
    if !ReaderAt(s.readers[i], a) then None
    else if a.SelfClose? then
      if s.lock.Free? then Some(Acquire(s, ReaderThread(i))) else None
    else if a.SelfCheckStep? && s.lock.WriteLocked? then None
    else if a.SendStep? then
      if s.outq.closed then Some(s.(crashed := true))    // a send on the closed queue panics, unrecovered
      else if !s.outq.CanSend() then None
      else Some(s.(readers := s.readers[i := NextReader(s.readers[i], a, false)],
                   outq := s.outq.Send(Data(i, s.readers[i].sub.id, s.readers[i].pc.result))))
    else
      Some(s.(readers := s.readers[i := NextReader(s.readers[i], a, s.state == Closed)],
              crashed := a.LoadConn? && !s.readers[i].pubSub))   // pubSubConn is nil at 118
  }

  // ---------------------------------------------------------------------------
  // The rest of the program, and the whole
  // ---------------------------------------------------------------------------

  datatype EnvStep = AddHandler(kind: HandlerKind) | SpawnCloser | OutsideSend

  function DoEnv(s: State, a: EnvStep): Option<State> {
    match a
    case AddHandler(kind) =>
      if HandlersLocked(s.proc) then None else Some(s.(handlers := s.handlers + [kind]))
    case SpawnCloser => Some(s.(outs := s.outs + [CloseCheck]))
    case OutsideSend => if s.outq.CanSend() then Some(s.(outq := s.outq.Send(Outside))) else None
  }

  datatype Step =
    | ReadPumpStep(r: ReadStep)
    | SelectLoop(p: SelectStep) | InitStage(t: InitStep) | StartStage(b: StartStep)
    | StopStage(e: StopStep) | LeaveStage(l: LeaveStep)
    | InsideClose(c: CloseStep)
    | OutsiderStep(n: nat, o: OutStep)
    | RedisReaderStep(i: nat, d: ReaderStep)
    | EnvironmentStep(v: EnvStep)

  function Do(s: State, a: Step): Option<State> {
    if s.crashed then None
    else match a
      case ReadPumpStep(x) => DoRead(s, x)
      case SelectLoop(x) => DoSelect(s, x)
      case InitStage(x) => DoInit(s, x)
      case StartStage(x) => DoStart(s, x)
      case StopStage(x) => DoStop(s, x)
      case LeaveStage(x) => DoLeave(s, x)
      case InsideClose(x) => DoClose(s, x)
      case OutsiderStep(n, x) => if n < |s.outs| then DoOut(s, n, x) else None
      case RedisReaderStep(i, x) => if i < |s.readers| then DoReader(s, i, x) else None
      case EnvironmentStep(x) => DoEnv(s, x)
  }

  function Run(s: State, steps: seq<Step>): Option<State> {
    if steps == [] then Some(s)
    else
      match Run(s, steps[..|steps| - 1])
      case None => None
      case Some(t) => Do(t, steps[|steps| - 1])
  }

  /** s is reached from NewConn by some interleaving. */
  ghost predicate Reachable(s: State) {
    exists bad, steps :: Run(Start0(bad), steps) == Some(s)
  }
}

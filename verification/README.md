# A verified model of the graphql-ws server side

This project models the server side of the `graphql-ws` subscription protocol as
`connection.go`, `redis/handler.go`, `redis/reader.go`, `subscriber.go`, `ast.go` and
`subscription.go` implement it, and proves what the library keeps in every run.

Check it with `dafny verify dfyconfig.toml` (Dafny 4.11).

## How it is built

* **The step machine** (`Machine.dfy`). The connection's goroutines (`readPump`,
  `processMessages`, any number of outside callers of `Close`, any number of Redis
  readers) each have a program counter. A step is what one goroutine does between two
  scheduling points: taking a lock, a channel operation, one handler call, one library
  call. `Do(s, step)` is the state after a step, or `None` when the goroutine cannot
  take it, in particular when it is blocked. `Run` takes any list of steps, so a
  statement about all runs is a statement about all interleavings and all outcomes of
  handlers, of the socket and of Redis. `close` is not atomic: how far it has got, and
  who is in it, is part of the lock. Panics unwind through the deferred calls; a panic
  that nothing recovers ends the process.
* **Invariants** (`Control.dfy`, `World.dfy`). Each is proved to hold initially and to be
  kept by every step. `Frames.dfy` and `ReaderSteps.dfy` say what one step can change.
* **A second description of the program** (`Flow.dfy`): when each line can be executed and
  what it does, as a relation that uses none of the machine's functions, and the proof that
  the machine takes exactly those steps (`StepsAreFlow`).
* **Theorems over runs** (`Lifecycle.dfy`, `Blocking.dfy`, `Outcomes.dfy`, `ReaderRuns.dfy`,
  `Stops.dfy`, `Feedback.dfy`, `Displacement.dfy`, `Crashes.dfy`), and **concrete runs**
  (`Witnesses.dfy`, `ReaderWitnesses.dfy`) showing that what the theorems leave open does
  happen.
* **The sequential code as objects and loops** (`Connection.dfy`, `RedisHandler.dfy`,
  `Subscribers.dfy`, `Subscriptions.dfy`, `Ast.dfy`), proved against recursive
  specifications (`Dispatch.dfy`, `RedisProtocol.dfy`) whose declarative readings are
  proved as lemmas. `DispatchRefinement.dfy` shows that the machine's one-call-per-step
  loops get where those specifications say, whatever the other goroutines do in between.

Fields of the machine's state named `hist`, `results`, `wasClosed`, `reopened`,
`missed`, `attempts`, `received`, `sent`, `put` and `got` only record what happened; no
step depends on them. `HistoryCounts` ties the counters to the steps of the run.

## What the code does against its own comments

* `setState` writes without looking (connection.go:82, called at 445 and 605), so Closed
  is not final. `ReopenedByReadPump` gives a run in which `readPump` starts late and
  takes a closed connection back to Initializing. `GuardPasses` counts exactly how often
  `close` is then entered again, and `LaterPassPanics` says what such an entry comes to.
  `SecondPass` gives a run. Once Established, on the other hand, it is never Initializing
  again, not even by way of Closed (`NoReinitialization`).
* `sendConnectionError` and `sendOperationErrors` hold the read lock while they send
  (connection.go:138-181). When the outgoing queue is full, `processMessages` waits for
  the queue only it drains, and no `close` can take the lock: `DeadlockIsForever`.
  `DeadlockHappens` gives a run.
* A plain error of a close handler returns before the queues are closed
  (connection.go:208): `CloseLeavesQueuesOpen`.
* The errors of `HandleConnectionStart` are never reported (connection.go:321 tests a
  list that starts empty); the model calls the handlers and drops their answers.
* The comment at redis/reader.go:94 says that more than three Subscribe failures in a row
  close the connection. They call `Conn.Close`. Whether that closes the reader depends on
  the handlers before the Redis handler, and on whether the reader still has its place in
  the map, which a client takes from it by starting the same ID again: `OwnCloseExactlyIf`.
  `CounterExceedsFour` gives a run in which the connection is closed and the reader goes on
  failing; `DisplacedIsNeverClosed` and `DisplacedOutlivesRange` are about the ID reused.
* A stop that lands between lines 108 and 118 of redis/reader.go sets the pubSubConn to nil
  that line 118 is about to use, and ends the process: `StopBeforeReceive`,
  `ProcessDiesOnly`.
* The EOF send of connection.go:298 is reached only if the ping ticker could not be made
  or line 445 ran after the deferred close: `WhenPanicEofIsSent`, `UnwindingClosesFirst`.

## Model

| member | source | states |
|---|---|---|
| Control.ControlKept | connection.go:183-220 | every step of every goroutine keeps the connection invariants: conserved queues, close discipline, handshake order, nothing but an EOF before line 445, the EOF last, unwinding through close |
| World.WorldKept | redis/handler.go:48-107 | every step keeps the reader invariants: the two maps agree, each reader's counter and deliveries, and what a Range in progress has settled |
| Frames.StepFrame | connection.go:82-87 | only close and the two setState calls write the state; logs, maps, shutdown and exit only move forward |
| Flow.NewConnIs | connection.go:55-70 | the initial state |
| Flow.Limits | connection.go:61-62 | both queues hold ten messages, and the fourth failure in a row is the fatal one |
| RedisProtocol.RequestsSnoc | redis/handler.go:64-70 | the requests of the fields, in order; a field whose Subscribe was not called requests nothing |
| Flow.StepsAreFlow | connection.go:183-705 | in every reachable state the machine takes a step exactly when the sources allow it, and with exactly the effects the sources give it, as one relation over lines, events and fields |
| Lifecycle.HistoryCounts | connection.go:183-220 | the recorded counts equal the number of steps of that kind in the run |
| Lifecycle.StoredAfterInit | connection.go:604-605 | a subscription is stored only in runs in which some connection_init succeeded |
| Lifecycle.AckBeforeData | connection.go:610 | in the outgoing FIFO, and in the order in which processMessages takes from it, every reader's data and every operation error comes after a connection_ack, for all interleavings |
| Lifecycle.StateChanges | connection.go:445 | the graph of possible state changes; Closed is left only by a setState on a closed connection |
| Lifecycle.NoReinitialization | connection.go:445 | once Established, or once a connection_init succeeded, every continuation is Established or Closed, also by way of Closed; readPump is past 445 |
| Lifecycle.GuardPasses | connection.go:187-194 | the guard of close is passed exactly as often as setState is called while Closed, plus one if the run ends Closed |
| Lifecycle.OneTeardown | connection.go:183-220 | without such setState calls exactly one of all competing closers tears down and every other gets ErrConnectionClosed |
| Lifecycle.LaterPassPanics | connection.go:194 | a later pass of the guard panics at the closed shutdown channel and closes neither queue |
| Lifecycle.QueuesClosedOnce | connection.go:216-217 | lines 216 and 217 never close a closed channel |
| Lifecycle.UnwindingClosesFirst | connection.go:495-508 | with the ticker made and 445 passed, every exit of processMessages runs its close before recover; the state stays Closed and line 298 is not reached |
| Lifecycle.WhenPanicEofIsSent | connection.go:294-298 | line 298 is reached only when NewTicker panicked or 445 ran after the deferred close had returned |
| Outcomes.MessageTaken | connection.go:522-677 | what each message leads to when it is taken: EOF, the two handshake messages, start, a stop with, without and with a broken payload, and any other |
| Outcomes.TerminateEnqueuesEof | connection.go:611-639 | a connection_terminate goes to all terminate handlers, and under every interleaving processMessages gets nowhere else without having enqueued an EOF, unless it is unwinding |
| Outcomes.FailedInitEnqueuesEof | connection.go:586-602 | the same after an init handler fails with a plain error or with a HandlerError that has neither flag |
| Outcomes.StartStoresIff | connection.go:351-383 | a start is stored and its start handlers are due iff ID and query are not empty, the query parses and the document is valid; otherwise nothing changes |
| Outcomes.CloseNeverWaits | connection.go:183-220 | while a call of close holds the lock it can always take another step |
| Blocking.QueueConservation | connection.go:61-62 | for both queues, enqueued is dequeued followed by pending, and at most ten are pending, across closes and competing senders |
| Blocking.LogsOnlyGrow | connection.go:117-119 | what a run has enqueued and dequeued is a prefix of what any continuation has |
| Blocking.FullQueueLeftOnlyByClose | connection.go:138-181 | at each of its six sends processMessages blocks iff the queue is open with exactly ten messages pending; every step of anybody then leaves the full queue and its position as they are, or closes the queue |
| Blocking.DeadlockIsForever | connection.go:138-181 | blocked at 153 or 175 it stays there in every continuation, no close ever returns and the state is frozen |
| Blocking.NothingAfterEof | connection.go:518-528 | no message is processed after an EOF was dequeued |
| Blocking.AtMostNineAfterEof | connection.go:637-639 | after an EOF is enqueued at most nine further messages are processed in any continuation |
| ReaderRuns.StoredSubscriptions | connection.go:337-380 | key = ID, not empty, non-empty query, a document that parsed and validated, fields equal to the extraction |
| ReaderRuns.RedisMapAgrees | redis/handler.go:76-77 | the Redis map holds only IDs of stored subscriptions, and for each ID ever started its latest reader |
| ReaderRuns.MapsOnlyGrow | connection.go:302-310 | both maps only grow over any run |
| ReaderRuns.ReaderDelivers | redis/reader.go:117-155 | under any interleaving a reader's data messages are, in order, one per received message whose result marshals, all with its subscription's ID |
| ReaderRuns.FailureCounter | redis/reader.go:91-105 | the counter is the number of Subscribe failures since the last success, at most four unless a close missed the reader |
| ReaderSteps.ReaderStepped | redis/reader.go:63-171 | what one step of anybody makes of one reader, exactly: its own step, the return of its close, a close by a stop or a Range, or nothing |
| Outcomes.ReceiveLoopEnds | redis/reader.go:107-155 | a reader leaves its receive loop only by a failure of Receive or by line 108 finding it Closed; after any other event it is back at 108 or sending that message's result |
| RedisProtocol.CountsFailuresSince | redis/reader.go:91-105 | the counter is the number of Subscribe failures that no success follows |
| Feedback.MissedExactlyIf | connection.go:696-705 | a reader misses its close exactly when Conn.Close returns to it while it is not Closed |
| Feedback.RangesExactlyIf | connection.go:197-211 | from the guard of close to its return, under any interleaving: the Redis handler's Range happens iff a Redis handler is registered on entry and no user handler before it stops the propagation, fails plainly or panics |
| Feedback.OwnCloseReaches | redis/reader.go:96-98 | then the reader that called Close is Closed on return, or a start with its ID displaced it |
| Feedback.OwnCloseMisses | connection.go:197-211 | otherwise a reader that was not Closed, and that no stop closes meanwhile, has missed its close |
| Displacement.DisplacedIsNeverClosed | redis/handler.go:76-107 | a reader whose place a later start with its ID took, not Closed and not picked by a Range under way, is never closed again: not by a stop, not by any close, its own included |
| Displacement.OwnCloseExactlyIf | redis/reader.go:96-98 | from the guard to the return of the close a reader calls, while its ID is neither stopped nor started again: a reader not Closed is closed by it iff on entry it is not displaced, a Redis handler is registered, and no user handler before that stops the propagation, fails plainly or panics |
| Displacement.RangeClosesExactlyIf | redis/handler.go:95-107 | over one Range, under any interleaving that does not start its ID again: a reader stored, past line 63 and not Closed at the beginning is Closed at the end iff it is not displaced at the beginning |
| Feedback.CounterBounded | redis/reader.go:91-105 | from before the reader is stored: if at each of its calls the connection and shutdown are open, the control write succeeds, and no handler ends the loop before the Redis handler, then unless it is displaced its counter is at most four, and at four it is calling Close or Closed |
| Feedback.ReadPumpTerminates | redis/reader.go:63-105 | in a run that meets the conditions of `CounterBounded`, from any point on where the reader is not listening and while its dials succeed and its Subscribes fail: it makes at most four minus its counter more attempts, takes a bounded number of steps, and is Closed once Close has returned after the fourth |
| Feedback.ClosedReaderEnds | redis/reader.go:64-66 | a Closed reader at the check of line 64 stays there and ends with its next step |
| ReaderRuns.SurvivorsOfClose | redis/handler.go:95-107 | from the completion of HandleWebsocketClose on, a reader not Closed was stored after its Range began, displaced, or ran setState(Running) after its own close |
| ReaderRuns.RangeCloses | redis/handler.go:95-107 | the same from the beginning to the end of one Range, whatever runs in between |
| ReaderRuns.NoSurvivors | redis/handler.go:95-107 | with fresh IDs and no overlap no reader survives |
| Witnesses.ReopenedByReadPump | connection.go:445 | a run in which the late write reopens a closed connection and line 298 is reached with the ticker made |
| Witnesses.SecondPass | connection.go:187-194 | a run into a second pass of the guard, which panics |
| Witnesses.PanicEofWithoutTicker | connection.go:503 | a run in which the panic handlers run on an open connection |
| Witnesses.DeadlockHappens | connection.go:153 | a run into the deadlock with the read lock held |
| ReaderWitnesses.DeliveryHappens | subscription.go:53-64 | a run with a handshake, a start and a delivered message |
| ReaderWitnesses.ClosedWhileListening | redis/reader.go:117-171 | a run in which a reader is closed while inside Receive, Receive fails, and readPump ends |
| ReaderWitnesses.FourthFailureCloses | redis/reader.go:93-98 | a run that meets the conditions of `CounterBounded`: four failures, the reader's Close, its Range, the reader Closed and ended |
| ReaderWitnesses.CloseMissesItsReader | connection.go:203-206 | a run in which a handler before the Redis handler stops the propagation and the reader that called Close goes on |
| ReaderWitnesses.CounterExceedsFour | redis/reader.go:93 | and then counts a fifth failure |
| ReaderWitnesses.DisplacedOutlivesRange | redis/handler.go:76 | a run with two starts of one ID, after which the first reader outlives a completed Range |
| ReaderWitnesses.ReopenedAfterRange | redis/reader.go:63 | a run in which line 63 reopens a reader that a completed Range had closed |
| Crashes.ProcessDiesOnly | redis/reader.go:118 | a step that ends the process leaves shutdown closed, or is a panic of a panic handler after NewTicker panicked, or a reader that reader.close had closed finding pubSubConn nil |
| ReaderWitnesses.StopBeforeReceive | redis/reader.go:108-118 | a run in which a stop between lines 108 and 118 ends the process with the connection open |
| ReaderWitnesses.DeliveryAfterClose | connection.go:117-119 | a run in which a reader sends on the queue that line 216 has closed, and the process ends |
| Dispatch.CallsAreReached | connection.go:564-596 | every loop calls, in order and once each, exactly the handlers of its kind up to the first decisive result, which is its verdict |
| Dispatch.WhoIsCalled | connection.go:197-211 | for every loop: a handler is called iff it implements the interface and every handler before it answered so that this loop goes on; the answers that let each loop go on are listed |
| DispatchRefinement.LoopFollowsVerdict | connection.go:383-397 | under every interleaving the machine's init, terminate, start, stop and panic loops pass no decisive result over, can always take another step, and go exactly where the specification's verdict leads |
| DispatchRefinement.CloseFollowsVerdict | connection.go:197-217 | under every interleaving the close loop gets to the queues, or, exactly when its verdict is a plain error, returns with both queues open; every other closer waits |
| Stops.StopClosesOnlyItsReader | redis/handler.go:83-91 | whatever runs in between, a stop changes no map and no reader but the one mapped at the stopped ID, and leaves that one Closed |
| Connection.LoopCalls | connection.go:383-397 | the effects of a loop are exactly those calls, in registration order |
| Connection.Conn.Broadcast | connection.go:383-397 | the terminate, start and stop loops make exactly the specified calls |
| Connection.Conn.InitBroadcast | connection.go:564-596 | the init loop makes the specified calls, and one connection_error attempt iff a plain error ends it on an open connection |
| Connection.Conn.ConnectionInit | connection.go:557-610 | the init calls, then by the first decisive result: the state and the ack, or connection_error unless Closed and the EOF, or the EOF alone |
| Connection.Conn.ConnectionTerminate | connection.go:611-639 | the terminate calls, then the EOF |
| Connection.Conn.GqlStart | connection.go:312-398 | stores the subscription, between the two loops, iff ID and query are not empty, the query parses and the document is valid; otherwise stores nothing and calls no start handler |
| Connection.Conn.GqlStop | connection.go:400-437 | calls the stop handlers of a known ID only, and keeps the subscription |
| Connection.Conn.Pong | connection.go:235-247 | the pong loop ends at the first error of any kind and returns it |
| Connection.Conn.CloseBroadcast | connection.go:197-211 | the close loop, and whether a plain error ended it |
| Connection.Conn.Close | connection.go:183-220 | refused when Closed, a panic on closed shutdown; else the state, shutdown, the close calls, and then both queues and the socket, in this order, unless a handler that is reached fails plainly |
| Connection.InitSucceedsIff | connection.go:572-595 | init succeeds iff no result is decisive or the first decisive one is a propagation stop |
| Connection.InitFailure | connection.go:586-602 | a plain error attempts one connection_error, unless the connection is Closed, and the EOF; a fatal HandlerError the EOF alone; a propagation stop the ack |
| Connection.CloseLeavesQueuesOpen | connection.go:208-217 | close leaves both queues open iff a close handler that is reached fails plainly |
| RedisHandler.SubscriptionHandler.HandleSubscriptionStart | redis/handler.go:48-79 | a fresh reader is stored iff every field succeeds, with the first-occurrence dedup of all requested topics; otherwise nothing changes |
| RedisHandler.SubscriptionHandler.HandleSubscriptionStop | redis/handler.go:83-91 | closes the reader mapped at the ID, drops its Redis connection, and touches nothing else of it or of any other |
| RedisHandler.SubscriptionHandler.HandleWebsocketClose | redis/handler.go:95-107 | run alone, leaves every mapped reader Closed |
| RedisHandler.RedisReader.Close | redis/reader.go:157-171 | closing is idempotent and drops the Redis connection |
| RedisHandler.RedisReader.ReadIteration | redis/reader.go:117-155 | one event: sends iff the result marshals, fails iff Receive fails |
| RedisHandler.RedisReader.ReceiveAll | redis/reader.go:107-114 | receives and handles everything up to the first failure, or nothing when the reader is Closed |
| RedisHandler.RedisReader.ReadLoop | redis/reader.go:69-115 | one turn run alone: the counter after it, and that the reader closes iff the turn is a Subscribe failure beyond the third and the parameter `reaches` says Close gets to it (`OwnCloseExactlyIf` says when) |
| RedisHandler.RedisReader.ReadPump | redis/reader.go:63-67 | run alone: if `reaches`, takes turns exactly until more than three Subscribe failures in a row; if not, takes every turn |
| Subscribers.Subscriber.Subscribe | subscriber.go:59-69 | appends the topic unless it is there |
| Subscribers.Subscriber.SubscriberSubscribe | subscriber.go:47-53 | rejects what is not a topic and then changes nothing |
| Subscribers.TopicsAreFirstOccurrences | subscriber.go:59-69 | after any requests the list is duplicate-free, has exactly the requested topics, in first-request order |
| Subscribers.AllSubscribedAtLastAck | redis/reader.go:120-127 | the "all subscribed" branch is taken exactly at the last acknowledgement |
| Subscriptions.ValidateSubscription | subscription.go:18-34 | the errors reported are exactly the defects, in order |
| Subscriptions.MatchesField | subscription.go:68-81 | true iff some subscription operation selects the field at top level, for extracted fields and a non-empty name |
| Ast.OperationDefinitionsWithOperation | ast.go:13-28 | the operations of that kind, in order |
| Ast.WithOperationMember | ast.go:13-28 | a definition is kept iff it is an operation of that kind |
| Ast.SelectionSetsForOperationDefinitions | ast.go:30-40 | the selection sets present, in order |
| Ast.NameForSelectionSet | ast.go:42-53 | one name per selection, empty for non-fields |
| Ast.NamesForSelectionSets | ast.go:55-63 | the names of all sets, in order |
| Ast.SubscriptionFieldNamesFromDocument | ast.go:65-69 | the staged walk computes the declarative reading of the document |
| Ast.StagedWalkIsReading | ast.go:13-69 | filtering, collecting and flattening equals a single reading of the document |
| Ast.ExtractionHomomorphism | ast.go:65-69 | names of concatenated documents are concatenated names |
| Ast.ExtractionOfOne | ast.go:13-63 | what one definition yields, with the homomorphism all of the extraction |
| Ast.EntryPerSelection | ast.go:42-63 | as many entries as top-level selections of subscriptions, each at its place, empty for non-fields |
| Ast.ExtractedIffSelected | ast.go:65-69 | a non-empty name is extracted iff some subscription operation selects that field at top level |

## Left out

- Socket framing, TLS, HTTP upgrade and subprotocol negotiation (upgrader.go, http_handler.go): reads and writes are outcomes of a step; a panic inside ReadJSON, and of readPump at a JSON `null`, is one outcome.
- GraphQL parsing, validation and execution, JSON marshalling: their answers ride along with the message they are about.
- Redis and its dialer: dial, subscribe and receive are outcomes; that the k-th acknowledgement counts the distinct channels so far is an assumption of `AckCount`.
- RemoveHandler (connection.go:102-114): not modelled; line 109 appends the tail slice as one element.
- Conn as one object under interleaving: the machine is on values, at the granularity of lock and channel operations; unsynchronised accesses to `Handlers` and `pubSubConn`, and aliasing, are not captured there. The objects of `Connection.dfy` and `RedisHandler.dfy` are updated in place but run without interruption.
- The RWMutex's preference for waiting writers: the machine allows a read lock while a writer waits, so it has more runs than the program.
- User handlers that call back into the connection (`SendData`, `AddHandler`, `Close`): assumed not to. Outside goroutines may do all three; a panic of an outside caller is left to it.
- Config factories, logging, tracing, counters, the 10 ms sleep, deadlines and wall-clock time; `WriteTimeout` is taken to be set.
- RedisHandler.RedisReader.ReadLoop: whether Conn.Close closes the reader is the parameter `reaches`, because the object runs alone; `OwnCloseExactlyIf` says when it does.
- RedisHandler.RedisReader.ReadPump: the same parameter, and nobody else closes the reader; `CounterBounded` and `ReadPumpTerminates` are about the whole program.
- Topics of dynamic types other than StringTopic.
- More than one Redis handler object per connection; the same one may be registered several times.

/** The step machine calls one handler per step, and the other goroutines run in
    between. Under every interleaving its loops still get where the recursive
    specification of the loop says, with no decisive result passed over. */
module DispatchRefinement {
  import opened Options
  import opened Machine
  import opened Runs
  import opened Dispatch
  import opened Control
  import opened Frames
  import opened Lifecycle
  import opened Blocking
  import opened Stops
  import RP = RedisProtocol

  /** hs are the handlers of those kinds. What the Redis handler answers ends no loop. */
  ghost predicate Describes(loop: Loop, kinds: seq<HandlerKind>, hs: seq<Handler>) {
    && |kinds| == |hs|
    && forall i: nat :: IsDecisive(loop, hs, i) ==> kinds[i].User?
  }

  /** A handler that does not implement the interface is passed over, like one whose
      call returns nil. */
  function AnswerOf(loop: Loop, h: Handler): Answer {
    Returns(if Implements(h, loop) then h.answers[loop] else Nil)
  }

  /** The loop has `todo` left of `kinds`, and no handler before ended it. */
  ghost predicate Underway(loop: Loop, kinds: seq<HandlerKind>, hs: seq<Handler>, todo: seq<HandlerKind>) {
    && |todo| <= |kinds| && todo == kinds[|kinds| - |todo|..]
    && forall j :: 0 <= j < |kinds| - |todo| ==> !IsDecisive(loop, hs, j)
  }

  // ---------------------------------------------------------------------------
  // The verdict, one handler at a time
  // ---------------------------------------------------------------------------

  /** The next handler ends the loop: its result is the verdict. */
  lemma EndsHere(loop: Loop, kinds: seq<HandlerKind>, hs: seq<Handler>, todo: seq<HandlerKind>)
    requires Describes(loop, kinds, hs) && Underway(loop, kinds, hs, todo) && todo != []
    requires Decisive(loop, AnswerOf(loop, hs[|hs| - |todo|]).result)
    ensures Verdict(loop, hs, 0) == Some(AnswerOf(loop, hs[|hs| - |todo|]).result)
  {
    var n := |hs| - |todo|;
    assert Reached(loop, hs, n) && IsDecisive(loop, hs, n);
    VerdictOf(loop, hs, n, 0);
  }

  /** The next handler does not end the loop. */
  lemma GoesOn(loop: Loop, kinds: seq<HandlerKind>, hs: seq<Handler>, todo: seq<HandlerKind>)
    requires Describes(loop, kinds, hs) && Underway(loop, kinds, hs, todo) && todo != []
    requires !IsDecisive(loop, hs, |hs| - |todo|)
    ensures Underway(loop, kinds, hs, todo[1..])
  {}

  lemma NoneLeft(loop: Loop, kinds: seq<HandlerKind>, hs: seq<Handler>)
    requires Describes(loop, kinds, hs) && Underway(loop, kinds, hs, [])
    ensures Verdict(loop, hs, 0) == None
  {
    VerdictFrom(loop, hs, 0);
  }

  // ---------------------------------------------------------------------------
  // The loops of processMessages
  // ---------------------------------------------------------------------------

  function LoopAt(p: ProcPc): Option<Loop> {
    match p
    case InitCalls(_) => Some(InitLoop)
    case TerminateCalls(_) => Some(TerminateLoop)
    case SubStartCalls(_, _) => Some(SubStartLoop)
    case SubStopCalls(_, _) => Some(SubStopLoop)
    case StopCheck(_, _, _) => Some(SubStopLoop)
    case StopSet(_, _, _) => Some(SubStopLoop)
    case PanicCalls(_) => Some(RecoverLoop)
    case _ => None
  }

  /** Where processMessages goes with the verdict of its loop. */
  function Target(loop: Loop, verdict: Option<HandlerResult>): ProcPc {
    match loop
    case InitLoop =>
      if verdict.None? || (verdict.value.Flagged? && verdict.value.propagationStopped) then Establish
      else if verdict.value.Plain? then ConnErrCheck
      else EofSend
    case TerminateLoop => EofSend
    case RecoverLoop => PanicCheck
    case _ => Select
  }

  /** The answer a step of processMessages brings from a user handler. */
  function AnswerIn(a: Step): Option<Answer> {
    match a
    case InitStage(CallHandler(x)) => Some(x)
    case StartStage(CallSubHandler(x)) => Some(x)
    case StartStage(RedisStartPanics) => Some(Panics)
    case StopStage(CallStopHandler(x)) => Some(x)
    case LeaveStage(CallPanicHandler(x)) => Some(x)
    case _ => None
  }

  /** In this loop the handlers answer what hs says. */
  ghost predicate Faithful(loop: Loop, kinds: seq<HandlerKind>, hs: seq<Handler>, s: State, a: Step) {
    && LoopAt(s.proc) == Some(loop)
    && (AnswerIn(a).Some? && Underway(loop, kinds, hs, s.proc.todo) && s.proc.todo != [] && |kinds| == |hs| ==>
          AnswerIn(a).value == AnswerOf(loop, hs[|hs| - |s.proc.todo|]))
  }

  /** In the loop with no decisive handler behind, or out of it with the verdict. */
  ghost predicate Tracks(loop: Loop, kinds: seq<HandlerKind>, hs: seq<Handler>, p: ProcPc) {
    if LoopAt(p) == Some(loop) then Underway(loop, kinds, hs, p.todo)
    else p == Target(loop, Verdict(loop, hs, 0))
  }

  /** One step of a loop: the next handler answers, or is passed over, or none is left. */
  ghost predicate Advances(loop: Loop, kinds: seq<HandlerKind>, hs: seq<Handler>, p: ProcPc, p': ProcPc)
    requires |kinds| == |hs| && LoopAt(p) == Some(loop) && Underway(loop, kinds, hs, p.todo)
  {
    if p.todo == [] then p' == Target(loop, None) || (LoopAt(p') == Some(loop) && p'.todo == [])
    else
      var r := AnswerOf(loop, hs[|hs| - |p.todo|]).result;
      || (LoopAt(p') == Some(loop) && p'.todo == p.todo)
      || (LoopAt(p') == Some(loop) && p'.todo == p.todo[1..] && (p.todo[0].Redis? || !Decisive(loop, r)))
      || (p.todo[0].User? && Decisive(loop, r) && p' == Target(loop, Some(r)))
  }

  lemma AdvanceTracks(loop: Loop, kinds: seq<HandlerKind>, hs: seq<Handler>, p: ProcPc, p': ProcPc)
    requires Describes(loop, kinds, hs) && LoopAt(p) == Some(loop) && Underway(loop, kinds, hs, p.todo)
    requires Advances(loop, kinds, hs, p, p')
    ensures Tracks(loop, kinds, hs, p')
  {
    if p.todo == [] {
      if LoopAt(p').None? { NoneLeft(loop, kinds, hs); }
    } else if LoopAt(p').None? {
      EndsHere(loop, kinds, hs, p.todo);
    } else if p'.todo != p.todo {
      GoesOn(loop, kinds, hs, p.todo);
    }
  }

  lemma InitAdvances(loop: Loop, kinds: seq<HandlerKind>, hs: seq<Handler>, s: State, x: InitStep, s': State)
    requires LoopAt(s.proc) == Some(loop) && |kinds| == |hs| && Underway(loop, kinds, hs, s.proc.todo)
    requires Faithful(loop, kinds, hs, s, InitStage(x)) && DoInit(s, x) == Some(s')
    ensures Advances(loop, kinds, hs, s.proc, s'.proc)
  {
    match x
    case CallHandler(answer) => if s.proc.InitCalls? {} else {}
    case SkipHandler => if s.proc.InitCalls? {} else {}
    case EndCalls => if s.proc.InitCalls? {} else {}
    case _ =>
  }

  lemma StartCallAdvances(loop: Loop, kinds: seq<HandlerKind>, hs: seq<Handler>, s: State, answer: Answer, s': State)
    requires LoopAt(s.proc) == Some(loop) && |kinds| == |hs| && Underway(loop, kinds, hs, s.proc.todo)
    requires Faithful(loop, kinds, hs, s, StartStage(CallSubHandler(answer)))
    requires DoStart(s, CallSubHandler(answer)) == Some(s')
    ensures Advances(loop, kinds, hs, s.proc, s'.proc)
  {
    if Decisive(SubStartLoop, answer.result) {} else {}
  }

  lemma StartAdvances(loop: Loop, kinds: seq<HandlerKind>, hs: seq<Handler>, s: State, x: StartStep, s': State)
    requires LoopAt(s.proc) == Some(loop) && |kinds| == |hs| && Underway(loop, kinds, hs, s.proc.todo)
    requires Faithful(loop, kinds, hs, s, StartStage(x)) && DoStart(s, x) == Some(s')
    ensures Advances(loop, kinds, hs, s.proc, s'.proc)
  {
    match x
    case CallSubHandler(answer) => StartCallAdvances(loop, kinds, hs, s, answer, s');
    case RedisStart(fields) => if RP.StartTopics(fields).None? {} else {}
    case EndSubCalls =>
    case _ =>
  }

  lemma StopAdvances(loop: Loop, kinds: seq<HandlerKind>, hs: seq<Handler>, s: State, x: StopStep, s': State)
    requires LoopAt(s.proc) == Some(loop) && |kinds| == |hs| && Underway(loop, kinds, hs, s.proc.todo)
    requires Faithful(loop, kinds, hs, s, StopStage(x)) && DoStop(s, x) == Some(s')
    ensures Advances(loop, kinds, hs, s.proc, s'.proc)
  {
    match x
    case CallStopHandler(answer) =>
    case RedisStop =>
    case ReaderCheck =>
    case ReaderSet =>
    case EndStopCalls =>
    case _ =>
  }

  lemma LeaveAdvances(loop: Loop, kinds: seq<HandlerKind>, hs: seq<Handler>, s: State, x: LeaveStep, s': State)
    requires LoopAt(s.proc) == Some(loop) && |kinds| == |hs| && Underway(loop, kinds, hs, s.proc.todo)
    requires Faithful(loop, kinds, hs, s, LeaveStage(x)) && DoLeave(s, x) == Some(s')
    ensures Advances(loop, kinds, hs, s.proc, s'.proc)
  {
    match x
    case CallPanicHandler(answer) =>
    case SkipPanicHandler =>
    case EndPanicCalls =>
    case _ =>
  }

  lemma StepTracks(loop: Loop, kinds: seq<HandlerKind>, hs: seq<Handler>, s: State, a: Step, s': State)
    requires Describes(loop, kinds, hs) && TeardownProgress(s)
    requires Faithful(loop, kinds, hs, s, a) && Tracks(loop, kinds, hs, s.proc) && Do(s, a) == Some(s')
    ensures Tracks(loop, kinds, hs, s'.proc)
  {
    if OthersStep(a) {
      OthersDoNotDisturb(s, a, s');
    } else {
      match a {
        case InitStage(x) => InitAdvances(loop, kinds, hs, s, x, s');
        case StartStage(x) => StartAdvances(loop, kinds, hs, s, x, s');
        case StopStage(x) => StopAdvances(loop, kinds, hs, s, x, s');
        case LeaveStage(x) => LeaveAdvances(loop, kinds, hs, s, x, s');
        case _ =>
      }
      AdvanceTracks(loop, kinds, hs, s.proc, s'.proc);
    }
  }

  lemma KeepsTracking(loop: Loop, kinds: seq<HandlerKind>, hs: seq<Handler>, s: State, a: Step, s': State)
    requires Describes(loop, kinds, hs) && Invariant(s)
    requires Faithful(loop, kinds, hs, s, a) && Tracks(loop, kinds, hs, s.proc) && Do(s, a) == Some(s')
    ensures Tracks(loop, kinds, hs, s'.proc) && Invariant(s')
  {
    StepInvariant(s, a, s');
    StepTracks(loop, kinds, hs, s, a, s');
  }

  lemma {:induction false} LoopTracks(loop: Loop, kinds: seq<HandlerKind>, hs: seq<Handler>,
                                      s: State, steps: seq<Step>, t: State)
    requires Invariant(s) && LoopAt(s.proc) == Some(loop) && s.proc.todo == kinds
    requires Describes(loop, kinds, hs) && Run(s, steps) == Some(t)
    requires forall k :: 0 <= k < |steps| && Run(s, steps[..k]).Some? ==>
                         Faithful(loop, kinds, hs, Run(s, steps[..k]).value, steps[k])
    ensures Invariant(t)
    ensures Tracks(loop, kinds, hs, t.proc)
  {
    if steps != [] {
      var n := |steps| - 1;
      var init := steps[..n];
      assert forall k :: 0 <= k < n ==> init[..k] == steps[..k];
      var m := Run(s, init).value;
      LoopTracks(loop, kinds, hs, s, init, m);
      assert Faithful(loop, kinds, hs, m, steps[n]);
      KeepsTracking(loop, kinds, hs, m, steps[n], t);
    }
  }

  /** The next step of a loop when the handlers answer what hs says. */
  ghost function NextStep(loop: Loop, hs: seq<Handler>, s: State): Step
    requires LoopAt(s.proc) == Some(loop) && |s.proc.todo| <= |hs|
  {
    var todo := s.proc.todo;
    var answer := if todo == [] then Panics else AnswerOf(loop, hs[|hs| - |todo|]);
    var own := todo != [] && todo[0].User?;
    match s.proc
    case SubStartCalls(sub, _) =>
      if own then StartStage(CallSubHandler(answer)) else if todo == [] then StartStage(EndSubCalls)
      else StartStage(RedisStart(seq(|sub.fields|, _ => RP.NotFound)))
    case SubStopCalls(_, _) =>
      if own then StopStage(CallStopHandler(answer)) else StopStage(if todo == [] then EndStopCalls else RedisStop)
    case StopCheck(_, _, _) => StopStage(ReaderCheck)
    case StopSet(_, _, _) => StopStage(ReaderSet)
    case PanicCalls(_) =>
      if own then LeaveStage(CallPanicHandler(answer))
      else LeaveStage(if todo == [] then EndPanicCalls else SkipPanicHandler)
    case _ => if own then InitStage(CallHandler(answer)) else InitStage(if todo == [] then EndCalls else SkipHandler)
  }

  lemma InitEnabled(s: State, answer: Answer)
    requires s.proc.InitCalls? || s.proc.TerminateCalls?
    ensures DoInit(s, if s.proc.todo == [] then EndCalls
                      else if s.proc.todo[0].User? then CallHandler(answer) else SkipHandler).Some?
  {}

  lemma LeaveEnabled(s: State, answer: Answer)
    requires s.proc.PanicCalls?
    ensures DoLeave(s, if s.proc.todo == [] then EndPanicCalls
                       else if s.proc.todo[0].User? then CallPanicHandler(answer) else SkipPanicHandler).Some?
  {}

  lemma StartEnabled(s: State, answer: Answer, fields: seq<RP.FieldOutcome>)
    requires s.proc.SubStartCalls? && |fields| == |s.proc.sub.fields|
    ensures DoStart(s, if s.proc.todo == [] then EndSubCalls
                       else if s.proc.todo[0].User? then CallSubHandler(answer) else RedisStart(fields)).Some?
  {}

  lemma StopEnabled(s: State, answer: Answer)
    requires s.proc.SubStopCalls? || (Stopping(s.proc) && s.proc.j < |s.readers|)
    ensures DoStop(s, if s.proc.StopCheck? then ReaderCheck else if s.proc.StopSet? then ReaderSet
                      else if s.proc.todo == [] then EndStopCalls
                      else if s.proc.todo[0].User? then CallStopHandler(answer) else RedisStop).Some?
  {}

  lemma NextStepEnabled(loop: Loop, hs: seq<Handler>, s: State)
    requires LoopAt(s.proc) == Some(loop) && |s.proc.todo| <= |hs| && !s.crashed
    requires Stopping(s.proc) ==> s.proc.j < |s.readers|
    ensures Do(s, NextStep(loop, hs, s)).Some?
  {
    var todo := s.proc.todo;
    var answer := if todo == [] then Panics else AnswerOf(loop, hs[|hs| - |todo|]);
    match s.proc
    case SubStartCalls(sub, _) => StartEnabled(s, answer, seq(|sub.fields|, _ => RP.NotFound));
    case SubStopCalls(_, _) => StopEnabled(s, answer);
    case StopCheck(_, _, _) => StopEnabled(s, answer);
    case StopSet(_, _, _) => StopEnabled(s, answer);
    case PanicCalls(_) => LeaveEnabled(s, answer);
    case _ => InitEnabled(s, answer);
  }

  /** One more step of processMessages is always possible. */
  lemma LoopGoesOn(loop: Loop, kinds: seq<HandlerKind>, hs: seq<Handler>, s: State)
    requires Reachable(s) && !s.crashed && LoopAt(s.proc) == Some(loop) && |s.proc.todo| <= |hs|
    ensures Faithful(loop, kinds, hs, s, NextStep(loop, hs, s))
    ensures !OthersStep(NextStep(loop, hs, s)) && Do(s, NextStep(loop, hs, s)).Some?
  {
    if Stopping(s.proc) { TargetReader(s); }
    NextStepEnabled(loop, hs, s);
  }

  /** Init, terminate, subscription-start, subscription-stop and panic loops: as long
      as the loop runs, every handler behind was called (if it implements the interface)
      with no decisive result, and the loop can take another step; it is left with the
      specification's verdict, for exactly the place that verdict leads to. Any steps of
      the other goroutines may come in between. */
  lemma LoopFollowsVerdict(loop: Loop, kinds: seq<HandlerKind>, hs: seq<Handler>, s: State, steps: seq<Step>, t: State)
    requires Reachable(s) && LoopAt(s.proc) == Some(loop) && s.proc.todo == kinds
    requires Describes(loop, kinds, hs) && Run(s, steps) == Some(t)
    requires forall k :: 0 <= k < |steps| && Run(s, steps[..k]).Some? ==>
                         Faithful(loop, kinds, hs, Run(s, steps[..k]).value, steps[k])
    ensures Tracks(loop, kinds, hs, t.proc)
    ensures LoopAt(t.proc) == Some(loop) && !t.crashed ==>
              Faithful(loop, kinds, hs, t, NextStep(loop, hs, t)) && Do(t, NextStep(loop, hs, t)).Some?
  {
    Invariants(s);
    LoopTracks(loop, kinds, hs, s, steps, t);
    ReachableRun(s, steps, t);
    if LoopAt(t.proc) == Some(loop) && !t.crashed { LoopGoesOn(loop, kinds, hs, t); }
  }

  // ---------------------------------------------------------------------------
  // The loop of close
  // ---------------------------------------------------------------------------

  predicate Broadcasting(s: State) {
    s.lock.WriteLocked? && (s.lock.phase.Broadcast? || s.lock.phase.Ranging?)
  }

  ghost predicate FaithfulClose(kinds: seq<HandlerKind>, hs: seq<Handler>, s: State, a: Step) {
    && Broadcasting(s)
    && (a.InsideClose? && a.c.CallCloser? && Underway(CloseLoop, kinds, hs, s.lock.phase.todo)
        && s.lock.phase.todo != [] && |kinds| == |hs| ==>
          a.c.a == AnswerOf(CloseLoop, hs[|hs| - |s.lock.phase.todo|]))
  }

  /** Still calling handlers; or past them towards the queues, when the verdict is none
      or a propagation stop; or, when it is a plain error, returned with that error. */
  ghost predicate TracksClose(kinds: seq<HandlerKind>, hs: seq<Handler>, owner: Tid, results: seq<CloseReturn>,
                              t: State)
  {
    if Broadcasting(t) then
      t.lock.owner == owner && t.results == results && Underway(CloseLoop, kinds, hs, t.lock.phase.todo)
    else if Verdict(CloseLoop, hs, 0) == Some(Plain) then
      && t.lock.Free? && !t.inq.closed && !t.outq.closed
      && |t.results| == |results| + 1 && t.results[..|results|] == results
      && t.results[|results|].who == owner && t.results[|results|].result == HandlerFailed
    else
      t.lock == WriteLocked(owner, CloseOut) && t.results == results
  }

  lemma CallerTracks(kinds: seq<HandlerKind>, hs: seq<Handler>, s: State, todo: seq<HandlerKind>, answer: Answer)
    requires s.lock.WriteLocked? && s.lock.phase == Broadcast(todo) && !s.inq.closed && !s.outq.closed
    requires Describes(CloseLoop, kinds, hs) && Underway(CloseLoop, kinds, hs, todo) && todo != []
    requires answer == AnswerOf(CloseLoop, hs[|hs| - |todo|])
    ensures TracksClose(kinds, hs, s.lock.owner, s.results, AfterCloser(s, todo, answer.result))
  {
    if Decisive(CloseLoop, answer.result) {
      EndsHere(CloseLoop, kinds, hs, todo);
      if answer.result.Plain? {} else {}
    } else {
      GoesOn(CloseLoop, kinds, hs, todo);
    }
  }

  lemma BroadcastTracks(kinds: seq<HandlerKind>, hs: seq<Handler>, s: State, x: CloseStep, s': State)
    requires TeardownProgress(s) && s.lock.WriteLocked? && s.lock.phase.Broadcast?
    requires Describes(CloseLoop, kinds, hs) && FaithfulClose(kinds, hs, s, InsideClose(x))
    requires Underway(CloseLoop, kinds, hs, s.lock.phase.todo) && DoBroadcast(s, s.lock.phase.todo, x) == Some(s')
    ensures TracksClose(kinds, hs, s.lock.owner, s.results, s')
  {
    var todo := s.lock.phase.todo;
    match x
    case CallCloser(answer) => CallerTracks(kinds, hs, s, todo, answer);
    case LastCloser => NoneLeft(CloseLoop, kinds, hs);
    case RangeBegin => GoesOn(CloseLoop, kinds, hs, todo);
    case _ =>
  }

  lemma RangeTracks(kinds: seq<HandlerKind>, hs: seq<Handler>, s: State, x: CloseStep, s': State)
    requires s.lock.WriteLocked? && s.lock.phase.Ranging?
    requires Underway(CloseLoop, kinds, hs, s.lock.phase.todo) && DoRange(s, s.lock.phase, x) == Some(s')
    ensures TracksClose(kinds, hs, s.lock.owner, s.results, s')
  {
    match x
    case RangePick(key) =>
    case RangeCheck =>
    case RangeSet =>
    case RangeEnd =>
    case _ =>
  }

  /** A step outside close leaves it where it is. */
  lemma OutsideTracks(kinds: seq<HandlerKind>, hs: seq<Handler>, owner: Tid, results: seq<CloseReturn>,
                      s: State, a: Step, s': State)
    requires Broadcasting(s) && TracksClose(kinds, hs, owner, results, s) && Forward(s, a, s') && !a.InsideClose?
    ensures TracksClose(kinds, hs, owner, results, s')
  {}

  lemma InsideTracks(kinds: seq<HandlerKind>, hs: seq<Handler>, owner: Tid, results: seq<CloseReturn>,
                     s: State, x: CloseStep, s': State)
    requires Describes(CloseLoop, kinds, hs) && TeardownProgress(s) && TracksClose(kinds, hs, owner, results, s)
    requires FaithfulClose(kinds, hs, s, InsideClose(x)) && DoClose(s, x) == Some(s')
    ensures TracksClose(kinds, hs, owner, results, s')
  {
    if s.lock.phase.Broadcast? {
      BroadcastTracks(kinds, hs, s, x, s');
    } else {
      RangeTracks(kinds, hs, s, x, s');
    }
  }

  lemma KeepsTrackingClose(kinds: seq<HandlerKind>, hs: seq<Handler>, owner: Tid, results: seq<CloseReturn>,
                           s: State, a: Step, s': State)
    requires Describes(CloseLoop, kinds, hs) && Invariant(s)
    requires FaithfulClose(kinds, hs, s, a) && TracksClose(kinds, hs, owner, results, s) && Do(s, a) == Some(s')
    ensures TracksClose(kinds, hs, owner, results, s') && Invariant(s')
  {
    StepInvariant(s, a, s');
    if a.InsideClose? {
      InsideTracks(kinds, hs, owner, results, s, a.c, s');
    } else {
      OutsideTracks(kinds, hs, owner, results, s, a, s');
    }
  }

  /** The close loop under every interleaving: it gets to the queues unless its verdict
      is a plain error, and then returns that error with both queues as they were. */
  lemma {:induction false} CloseFollowsVerdict(kinds: seq<HandlerKind>, hs: seq<Handler>,
                                               s: State, steps: seq<Step>, t: State)
    requires Invariant(s) && s.lock.WriteLocked? && s.lock.phase == Broadcast(kinds)
    requires Describes(CloseLoop, kinds, hs) && Run(s, steps) == Some(t)
    requires forall k :: 0 <= k < |steps| && Run(s, steps[..k]).Some? ==>
                         FaithfulClose(kinds, hs, Run(s, steps[..k]).value, steps[k])
    ensures Invariant(t)
    ensures TracksClose(kinds, hs, s.lock.owner, s.results, t)
  {
    if steps != [] {
      var n := |steps| - 1;
      var init := steps[..n];
      assert forall k :: 0 <= k < n ==> init[..k] == steps[..k];
      var m := Run(s, init).value;
      CloseFollowsVerdict(kinds, hs, s, init, m);
      assert FaithfulClose(kinds, hs, m, steps[n]);
      KeepsTrackingClose(kinds, hs, s.lock.owner, s.results, m, steps[n], t);
    }
  }
}

/** Safety of the connection over whole runs: the handshake order, the state graph,
    close-once and how processMessages unwinds. */
module Lifecycle {
  import opened Options
  import opened Machine
  import opened Control
  import opened World
  import opened Frames

  // ---------------------------------------------------------------------------
  // The invariants hold in every reachable state
  // ---------------------------------------------------------------------------

  ghost predicate Invariant(s: State) {
    Controlled(s) && Consistent(s)
  }

  lemma StepInvariant(s: State, a: Step, s': State)
    requires Invariant(s) && Do(s, a) == Some(s')
    ensures Invariant(s') && Frame(s, a, s')
  {
    ControlKept(s, a, s');
    WorldKept(s, a, s');
    StepFrame(s, a, s');
  }

  lemma {:induction false} RunInvariant(s: State, steps: seq<Step>, t: State)
    requires Invariant(s) && Run(s, steps) == Some(t)
    ensures Invariant(t)
  {
    if steps != [] {
      var init := steps[..|steps| - 1];
      var m := Run(s, init).value;
      RunInvariant(s, init, m);
      StepInvariant(m, steps[|steps| - 1], t);
    }
  }

  lemma Invariants(s: State)
    requires Reachable(s)
    ensures Invariant(s)
  {
    var bad, steps :| Run(Start0(bad), steps) == Some(s);
    ControlStarts(bad);
    WorldStarts(bad);
    RunInvariant(Start0(bad), steps, s);
  }

  // ---------------------------------------------------------------------------
  // What a whole run does to the parts that only move forward
  // ---------------------------------------------------------------------------

  ghost predicate Later(s: State, t: State) {
    && Extends(s.inq, t.inq) && Extends(s.outq, t.outq)
    && s.results <= t.results
    && (Exiting(s.proc) ==> Exiting(t.proc) && t.inq.got == s.inq.got)
    && (s.hist.ticker ==> t.hist.ticker)
    && (!s.read.SetInitializing? ==> !t.read.SetInitializing? && t.hist.lateInit == s.hist.lateInit)
    && s.subs.Keys <= t.subs.Keys && s.redis.Keys <= t.redis.Keys
    && |s.readers| <= |t.readers|
  }

  lemma LaterStep(s: State, m: State, a: Step, t: State)
    requires Later(s, m) && Frame(m, a, t)
    ensures Later(s, t)
  {}

  lemma {:induction false} RunForward(s: State, steps: seq<Step>, t: State)
    requires Invariant(s) && Run(s, steps) == Some(t)
    ensures Later(s, t) && Invariant(t)
  {
    if steps != [] {
      var init := steps[..|steps| - 1];
      var m := Run(s, init).value;
      RunForward(s, init, m);
      StepInvariant(m, steps[|steps| - 1], t);
      LaterStep(s, m, steps[|steps| - 1], t);
    }
  }

  // ---------------------------------------------------------------------------
  // Handshake order
  // ---------------------------------------------------------------------------

  /** Steps of a run that satisfy p in the state they are taken in. */
  function CountAlong(s: State, steps: seq<Step>, p: (State, Step) -> bool): nat {
    if steps == [] then 0
    else
      var init := steps[..|steps| - 1];
      CountAlong(s, init, p)
      + (match Run(s, init) case None => 0 case Some(t) => One(p(t, steps[|steps| - 1])))
  }

  predicate Establishes(s: State, a: Step) {
    a == InitStage(SetEstablished)
  }

  /** Line 445 runs when processMessages is past its deferred close. */
  predicate InitializesLate(s: State, a: Step) {
    a == ReadPumpStep(ReadSetState) && AfterClose(s.proc)
  }

  /** The bookkeeping fields count what their names say. */
  lemma {:induction false} HistoryCounts(bad: bool, steps: seq<Step>, t: State)
    requires Run(Start0(bad), steps) == Some(t)
    ensures t.hist.passes == CountAlong(Start0(bad), steps, PassesGuard)
    ensures t.hist.reopens == CountAlong(Start0(bad), steps, Reopens)
    ensures t.hist.inits == CountAlong(Start0(bad), steps, Establishes)
    ensures t.hist.lateInit ==> CountAlong(Start0(bad), steps, InitializesLate) > 0
    ensures Invariant(t) && t.badTicker == bad
  {
    var s := Start0(bad);
    ControlStarts(bad);
    WorldStarts(bad);
    if steps != [] {
      var init := steps[..|steps| - 1];
      var m := Run(s, init).value;
      HistoryCounts(bad, init, m);
      StepInvariant(m, steps[|steps| - 1], t);
    }
  }

  lemma {:induction false} SomeStep(s: State, steps: seq<Step>, p: (State, Step) -> bool)
    requires CountAlong(s, steps, p) > 0
    ensures exists k :: 0 <= k < |steps| && Run(s, steps[..k]).Some? && p(Run(s, steps[..k]).value, steps[k])
  {
    var n := |steps| - 1;
    if CountAlong(s, steps[..n], p) > 0 {
      SomeStep(s, steps[..n], p);
      var k :| 0 <= k < n && Run(s, steps[..n][..k]).Some? && p(Run(s, steps[..n][..k]).value, steps[..n][k]);
      assert steps[..n][..k] == steps[..k];
    }
  }

  /** A subscription is stored only in runs in which a connection_init succeeded before. */
  lemma StoredAfterInit(bad: bool, steps: seq<Step>, s: State)
    requires Run(Start0(bad), steps) == Some(s) && s.subs != map[]
    ensures exists k :: 0 <= k < |steps| && steps[k] == InitStage(SetEstablished)
  {
    HistoryCounts(bad, steps, s);
    SomeStep(Start0(bad), steps, Establishes);
  }

  /** In the outgoing FIFO, and so in what reaches the socket, every data message of
      a reader and every operation error comes after a connection_ack. */
  lemma AckBeforeData(s: State, i: nat)
    requires Reachable(s)
    ensures i < |s.outq.put| && NeedsAck(s.outq.put[i]) ==> exists j :: 0 <= j < i && s.outq.put[j] == Ack
    ensures i < |s.outq.got| && NeedsAck(s.outq.got[i]) ==> exists j :: 0 <= j < i && s.outq.got[j] == Ack
  {
    Invariants(s);
    assert forall k :: 0 <= k < |s.outq.got| ==> s.outq.got[k] == s.outq.put[k];
    if i < |s.outq.put| && NeedsAck(s.outq.put[i]) {
      assert Ack in s.outq.put[..i];
      var j :| 0 <= j < i && s.outq.put[..i][j] == Ack;
    }
  }

  // ---------------------------------------------------------------------------
  // The state graph
  // ---------------------------------------------------------------------------

  /** The changes of the connection state that can happen at all. Closed is left only
      by the two unguarded setState calls; Established is left only for Closed. */
  predicate StateEdge(v: ConnState, w: ConnState) {
    || v == w
    || w == Closed
    || (v == Undefined && w == Initializing)
    || (v == Initializing && w == Established)
    || (v == Closed && w == Initializing)
    || (v == Closed && w == Established)
  }

  lemma StateChanges(s: State, a: Step, s': State)
    requires Reachable(s) && Do(s, a) == Some(s')
    ensures StateEdge(s.state, s'.state)
    ensures s.state == Closed && s'.state != Closed ==> Reopens(s, a)
  {
    Invariants(s);
    StepInvariant(s, a, s');
    if a == InitStage(SetEstablished) {
      assert s.proc.Establish?;
    } else if a == ReadPumpStep(ReadSetState) {
      assert s.read.SetInitializing?;
    }
  }

  /** A connection_init has succeeded: line 445 is behind, and so are all states but two. */
  ghost predicate PastHandshake(s: State) {
    && (s.state == Established ==> s.hist.inits > 0)
    && (s.hist.inits > 0 ==> !s.read.SetInitializing? && (s.state == Established || s.state == Closed))
  }

  lemma PastHandshakeKept(s: State, a: Step, s': State)
    requires BeforeReading(s) && PastHandshake(s) && Frame(s, a, s') && Do(s, a) == Some(s')
    ensures PastHandshake(s')
  {
    if a == InitStage(SetEstablished) {
      assert s.proc.Establish?;
    } else if a == ReadPumpStep(ReadSetState) {
      assert s.read.SetInitializing?;
    }
  }

  lemma {:induction false} PastHandshakeRuns(s: State, steps: seq<Step>, t: State)
    requires Invariant(s) && PastHandshake(s) && Run(s, steps) == Some(t)
    ensures Invariant(t) && PastHandshake(t) && t.hist.inits >= s.hist.inits
  {
    if steps != [] {
      var init := steps[..|steps| - 1];
      var m := Run(s, init).value;
      PastHandshakeRuns(s, init, m);
      StepInvariant(m, steps[|steps| - 1], t);
      PastHandshakeKept(m, steps[|steps| - 1], t);
    }
  }

  /** Although line 445 writes without looking, a connection that was once Established is
      never Initializing again, not even by way of Closed: from then on it is Established
      or Closed in every continuation, and readPump is past 445. */
  lemma NoReinitialization(s: State, steps: seq<Step>, t: State)
    requires Reachable(s) && (s.state == Established || s.hist.inits > 0) && Run(s, steps) == Some(t)
    ensures t.state == Established || t.state == Closed
    ensures !t.read.SetInitializing?
  {
    var bad, before :| Run(Start0(bad), before) == Some(s);
    ControlStarts(bad);
    WorldStarts(bad);
    PastHandshakeRuns(Start0(bad), before, s);
    PastHandshakeRuns(s, steps, t);
  }

  // ---------------------------------------------------------------------------
  // Close-once
  // ---------------------------------------------------------------------------

  /** The guard of close is passed exactly once more than setState is called on a
      Closed connection, when the run ends Closed, and exactly as often otherwise. */
  lemma GuardPasses(bad: bool, steps: seq<Step>, s: State)
    requires Run(Start0(bad), steps) == Some(s)
    ensures CountAlong(Start0(bad), steps, PassesGuard)
            == CountAlong(Start0(bad), steps, Reopens) + One(s.state == Closed)
  {
    HistoryCounts(bad, steps, s);
  }

  lemma {:induction false} PassedPair(results: seq<CloseReturn>, i: nat, j: nat)
    requires i < j < |results| && !results[i].result.Refused? && !results[j].result.Refused?
    ensures Passed(results) >= 2
  {
    var n := |results| - 1;
    if j < n {
      PassedPair(results[..n], i, j);
    } else {
      PassedOne(results[..n], i);
    }
  }

  lemma {:induction false} PassedOne(results: seq<CloseReturn>, i: nat)
    requires i < |results| && !results[i].result.Refused?
    ensures Passed(results) >= 1
  {
    var n := |results| - 1;
    if i < n { PassedOne(results[..n], i); }
  }

  lemma {:induction false} PassedSome(results: seq<CloseReturn>)
    requires Passed(results) >= 1
    ensures exists i :: 0 <= i < |results| && !results[i].result.Refused?
  {
    var n := |results| - 1;
    if results[n].result.Refused? {
      PassedSome(results[..n]);
      var i :| 0 <= i < n && !results[..n][i].result.Refused?;
      assert results[i] == results[..n][i];
    }
  }

  /** If setState is never called on a Closed connection, then as soon as any call of
      close has returned exactly one call, finished or still at work, got to tear the
      connection down; all the others return ErrConnectionClosed. */
  lemma OneTeardown(bad: bool, steps: seq<Step>, s: State)
    requires Run(Start0(bad), steps) == Some(s)
    requires CountAlong(Start0(bad), steps, Reopens) == 0
    ensures forall i, j :: 0 <= i < j < |s.results| ==> s.results[i].result.Refused? || s.results[j].result.Refused?
    ensures s.lock.WriteLocked? ==> forall i :: 0 <= i < |s.results| ==> s.results[i].result.Refused?
    ensures s.results != [] && !s.lock.WriteLocked? ==>
              exists i :: 0 <= i < |s.results| && !s.results[i].result.Refused?
    ensures s.results != [] ==> CountAlong(Start0(bad), steps, PassesGuard) == 1
  {
    HistoryCounts(bad, steps, s);
    forall i, j | 0 <= i < j < |s.results|
      ensures s.results[i].result.Refused? || s.results[j].result.Refused?
    {
      if !s.results[i].result.Refused? && !s.results[j].result.Refused? { PassedPair(s.results, i, j); }
    }
    forall i | s.lock.WriteLocked? && 0 <= i < |s.results| ensures s.results[i].result.Refused? {
      if !s.results[i].result.Refused? { PassedOne(s.results, i); }
    }
    if s.results != [] && !s.lock.WriteLocked? { PassedSome(s.results); }
  }

  /** A later pass of the guard gets no further than the closed shutdown channel: it
      panics, and closes neither queue. */
  lemma LaterPassPanics(s: State, a: Step, s': State)
    requires Reachable(s) && Do(s, a) == Some(s') && PassesGuard(s, a) && s.hist.passes > 0
    ensures s'.lock.Free? && |s'.results| == |s.results| + 1 && s'.results[|s.results|].result == Panicked
    ensures s'.inq == s.inq && s'.outq == s.outq
  {
    Invariants(s);
    match a
    case ReadPumpStep(x) =>
    case LeaveStage(x) =>
    case OutsiderStep(n, x) =>
    case RedisReaderStep(i, x) =>
    case _ =>
  }

  /** Lines 216 and 217 never close a closed queue. */
  lemma QueuesClosedOnce(s: State)
    requires Reachable(s) && s.lock.WriteLocked?
    ensures s.lock.phase.CloseOut? ==> !s.outq.closed && !s.inq.closed
    ensures s.lock.phase.CloseIn? ==> s.outq.closed && !s.inq.closed
  {
    Invariants(s);
  }

  // ---------------------------------------------------------------------------
  // Unwinding of processMessages
  // ---------------------------------------------------------------------------

  /** Once the ping ticker exists and readPump has passed 445, however
      processMessages leaves its loop, its deferred close has returned before recover
      runs, the state is Closed from then on, and the send of line 298 is not reached. */
  lemma UnwindingClosesFirst(s: State, steps: seq<Step>, t: State)
    requires Reachable(s) && s.hist.ticker && !s.read.SetInitializing? && !AfterClose(s.proc)
    requires Run(s, steps) == Some(t) && AfterClose(t.proc)
    ensures exists r :: r in t.results && r.who == Process && r.leaving
    ensures t.state == Closed
    ensures !t.proc.PanicEofSend?
  {
    Invariants(s);
    RunForward(s, steps, t);
  }

  /** Line 298 is reached only in runs in which NewTicker panicked, or 445 ran after the
      deferred close had returned. */
  lemma WhenPanicEofIsSent(bad: bool, steps: seq<Step>, s: State)
    requires Run(Start0(bad), steps) == Some(s) && s.proc.PanicEofSend?
    ensures bad || exists k :: 0 <= k < |steps| && Run(Start0(bad), steps[..k]).Some?
                              && InitializesLate(Run(Start0(bad), steps[..k]).value, steps[k])
  {
    HistoryCounts(bad, steps, s);
    if !bad { SomeStep(Start0(bad), steps, InitializesLate); }
  }
}

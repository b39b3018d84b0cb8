/** The Redis readers over whole runs: agreement of the maps, delivery, the failure
    counter and what survives a close. */
module ReaderRuns {
  import opened Options
  import opened Subscriptions
  import opened Machine
  import opened World
  import opened Lifecycle
  import RP = RedisProtocol

  // ---------------------------------------------------------------------------
  // The two maps
  // ---------------------------------------------------------------------------

  /** Every stored subscription was accepted: key and ID agree and are not empty, the
      query is not empty, the document is valid, the fields are those extracted. */
  lemma StoredSubscriptions(s: State, id: string)
    requires Reachable(s) && id in s.subs
    ensures s.subs[id].id == id && WellFormed(s.subs[id])
    ensures id in s.origin && s.origin[id].StartBody? && s.origin[id].valid
    ensures s.subs[id].query == s.origin[id].query && s.subs[id].document == s.origin[id].parsed
  {
    Invariants(s);
  }

  /** The Redis handler knows only IDs of stored subscriptions, and holds for each the
      reader started last. */
  lemma RedisMapAgrees(s: State)
    requires Reachable(s)
    ensures s.redis.Keys <= s.subs.Keys
    ensures forall id :: id in s.redis <==> exists i :: 0 <= i < |s.readers| && s.readers[i].sub.id == id
    ensures forall id :: id in s.redis ==>
              && s.redis[id] < |s.readers| && s.readers[s.redis[id]].sub.id == id
              && forall i :: s.redis[id] < i < |s.readers| ==> s.readers[i].sub.id != id
  {
    Invariants(s);
  }

  /** Neither map ever loses an ID, in particular not by a stop. */
  lemma MapsOnlyGrow(s: State, steps: seq<Step>, t: State)
    requires Reachable(s) && Run(s, steps) == Some(t)
    ensures s.subs.Keys <= t.subs.Keys && s.redis.Keys <= t.redis.Keys
  {
    Invariants(s);
    RunForward(s, steps, t);
  }

  // ---------------------------------------------------------------------------
  // Delivery
  // ---------------------------------------------------------------------------

  /** Under any interleaving, the data messages of reader i in the outgoing FIFO are,
      in order, one per received message whose result marshals, all with the ID of its
      subscription; at most the one being sent is missing. */
  lemma ReaderDelivers(s: State, i: nat)
    requires Reachable(s) && i < |s.readers|
    ensures var r := s.readers[i];
            && FromReader(s.outq.put, i) == DataOf(i, r.sub.id, r.sent)
            && RP.Delivered(r.received) == r.sent + (if r.pc.SendData? then [r.pc.result] else [])
  {
    Invariants(s);
  }

  // ---------------------------------------------------------------------------
  // The failure counter
  // ---------------------------------------------------------------------------

  /** subscriptionErrors counts the Subscribe failures since the last success. Unless
      the reader's own Conn.Close failed to reach it, it never exceeds four, and at
      four the reader is calling Close or closed. */
  lemma FailureCounter(s: State, i: nat)
    requires Reachable(s) && i < |s.readers|
    ensures s.readers[i].errors == RP.ConsecutiveFailures(s.readers[i].attempts)
    ensures !s.readers[i].missed ==> s.readers[i].errors <= RP.FATAL_FAILURES
    ensures !s.readers[i].missed && s.readers[i].errors == RP.FATAL_FAILURES ==>
              CallingClose(s.readers[i].pc) || s.readers[i].state == RP.Closed
  {
    Invariants(s);
  }

  // ---------------------------------------------------------------------------
  // Who survives a close
  // ---------------------------------------------------------------------------

  /** When the Redis handler's HandleWebsocketClose has completed, and ever after, a
      reader that is not Closed was stored after its Range began, or was displaced by a
      later start with the same ID, or had yet to run line 63 when the Range began and
      ran it after having been closed. */
  lemma SurvivorsOfClose(s: State, i: nat)
    requires Reachable(s) && s.hist.ranged.Some? && i < |s.readers| && s.readers[i].state != RP.Closed
    ensures var start := s.hist.ranged.value;
            || i >= start.count
            || Displaced(s.redis, s.readers, i)
            || (i in start.launching && s.readers[i].reopened)
  {
    Invariants(s);
    if i < s.hist.ranged.value.count {
      assert Settled(s.redis, s.readers, i, s.hist.ranged.value.launching);
    }
  }

  /** With fresh IDs, nothing stored since, and no reader about to run line 63, none
      survives. */
  lemma NoSurvivors(s: State)
    requires Reachable(s) && s.hist.ranged.Some?
    requires s.hist.ranged.value.count == |s.readers| && s.hist.ranged.value.launching == {}
    requires forall i, j :: 0 <= i < j < |s.readers| ==> s.readers[i].sub.id != s.readers[j].sub.id
    ensures forall i :: 0 <= i < |s.readers| ==> s.readers[i].state == RP.Closed
  {
    Invariants(s);
    forall i | 0 <= i < |s.readers| ensures s.readers[i].state == RP.Closed {
      assert Settled(s.redis, s.readers, i, {});
      RedisMapAgrees(s);
      var id := s.readers[i].sub.id;
      assert id in s.redis;
      assert s.readers[s.redis[id]].sub.id == id;
    }
  }

  lemma RangeStepGoesOn(s: State, x: CloseStep, s': State)
    requires InRange(s) && DoClose(s, x) == Some(s') && x != RangeEnd
    ensures InRange(s') && s'.lock.phase.start == s.lock.phase.start
  {
    match x
    case RangePick(key) =>
    case RangeCheck =>
    case RangeSet =>
    case _ =>
  }

  lemma RangeBeginStart(s: State, s': State)
    requires DoClose(s, RangeBegin) == Some(s')
    ensures InRange(s') && s'.lock.phase.start == RangeStart(|s.readers|, Launching(s.readers))
  {}

  lemma RangeEndRecords(s: State, s': State)
    requires InRange(s) && DoClose(s, RangeEnd) == Some(s')
    ensures s'.hist.ranged == Some(s.lock.phase.start)
  {}

  /** A Range stays under way, over the same start set, until its own end. */
  lemma RangeGoesOn(s: State, a: Step, s': State)
    requires Invariant(s) && InRange(s) && Do(s, a) == Some(s') && a != InsideClose(RangeEnd)
    ensures Invariant(s') && InRange(s') && s'.lock.phase.start == s.lock.phase.start
  {
    StepInvariant(s, a, s');
    if a.InsideClose? { RangeStepGoesOn(s, a.c, s'); }
  }

  lemma {:induction false} RangeRuns(s: State, steps: seq<Step>, t: State)
    requires Invariant(s) && InRange(s) && Run(s, steps) == Some(t) && InsideClose(RangeEnd) !in steps
    ensures Invariant(t) && InRange(t) && t.lock.phase.start == s.lock.phase.start
  {
    if steps != [] {
      var init := steps[..|steps| - 1];
      var m := Run(s, init).value;
      RangeRuns(s, init, m);
      RangeGoesOn(m, steps[|steps| - 1], t);
    }
  }

  lemma SettledNow(t: State, i: nat)
    requires Survivors(t) && t.hist.ranged.Some? && i < t.hist.ranged.value.count
    ensures i < |t.readers| && Settled(t.redis, t.readers, i, t.hist.ranged.value.launching)
  {}

  lemma RangedSettles(m: State, t: State, i: nat)
    requires Invariant(m) && InRange(m) && Do(m, InsideClose(RangeEnd)) == Some(t)
    requires i < m.lock.phase.start.count
    ensures i < |t.readers| && Settled(t.redis, t.readers, i, m.lock.phase.start.launching)
  {
    RangeEndRecords(m, t);
    StepInvariant(m, InsideClose(RangeEnd), t);
    SettledNow(t, i);
  }

  lemma RangeStarts(s0: State, s: State)
    requires Reachable(s0) && Do(s0, InsideClose(RangeBegin)) == Some(s)
    ensures Invariant(s) && InRange(s) && s.lock.phase.start == RangeStart(|s0.readers|, Launching(s0.readers))
  {
    Invariants(s0);
    StepInvariant(s0, InsideClose(RangeBegin), s);
    RangeBeginStart(s0, s);
  }

  /** From the start of HandleWebsocketClose in s0 to its end in t, whatever else runs
      in between: each reader stored in s0 is Closed in t, or a later start with its ID
      displaced it, or it had yet to run line 63 in s0 and ran it after its close. */
  lemma RangeCloses(s0: State, s: State, steps: seq<Step>, m: State, t: State, i: nat)
    requires Reachable(s0) && Do(s0, InsideClose(RangeBegin)) == Some(s)
    requires Run(s, steps) == Some(m) && InsideClose(RangeEnd) !in steps
    requires Do(m, InsideClose(RangeEnd)) == Some(t) && i < |s0.readers|
    ensures i < |t.readers|
    ensures || t.readers[i].state == RP.Closed
            || Displaced(t.redis, t.readers, i)
            || (s0.readers[i].pc.Launched? && t.readers[i].reopened)
  {
    RangeStarts(s0, s);
    RangeRuns(s, steps, m);
    RangedSettles(m, t, i);
  }
}

/** The Redis subscription handler and its readers as objects (redis/handler.go,
    redis/reader.go), run without interruption. What the fields, the dialer and Redis
    do is handed in as outcomes. */
module RedisHandler {
  import opened Options
  import opened Subscriptions
  import opened Subscribers
  import opened RedisProtocol

  // One turn of readLoop: does the dial succeed, does Subscribe succeed, and what
  // is received until Receive fails.
  datatype Turn = Turn(dial: bool, subscribe: bool, events: seq<RedisEvent>)

  function AttemptOf(t: Turn): Attempt {
    if !t.dial then DialFailed else if t.subscribe then SubscribeOk else SubscribeFailed
  }

  function Attempts(turns: seq<Turn>): seq<Attempt> {
    seq(|turns|, i requires 0 <= i < |turns| => AttemptOf(turns[i]))
  }

  /** The messages received from event k on, before the first failure of Receive. */
  function Messages(events: seq<RedisEvent>, k: nat): seq<RedisMessage>
    requires k <= |events|
    decreases |events| - k
  {
    if k == |events| || events[k].Failure? then []
    else (if events[k].Incoming? then [events[k].message] else []) + Messages(events, k + 1)
  }

  lemma MessagesStep(before: seq<RedisMessage>, events: seq<RedisEvent>, k: nat)
    requires k < |events|
    ensures before + Messages(events, k) ==
              if events[k].Failure? then before
              else before + (if events[k].Incoming? then [events[k].message] else []) + Messages(events, k + 1)
    ensures Messages(events, |events|) == []
  {}

  /** Failures in a row once the first n turns are over, starting from `before`. */
  function FailuresAfter(before: seq<Attempt>, turns: seq<Turn>, n: nat): nat
    requires n <= |turns|
  {
    ConsecutiveFailures(before + Attempts(turns[..n]))
  }

  lemma FailuresStep(before: seq<Attempt>, turns: seq<Turn>, n: nat)
    requires n < |turns|
    ensures before + Attempts(turns[..n + 1]) == before + Attempts(turns[..n]) + [AttemptOf(turns[n])]
    ensures FailuresAfter(before, turns, n + 1)
            == if !turns[n].dial then FailuresAfter(before, turns, n)
               else if turns[n].subscribe then 0
               else FailuresAfter(before, turns, n) + 1
  {
    assert Attempts(turns[..n + 1]) == Attempts(turns[..n]) + [AttemptOf(turns[n])];
    assert before + Attempts(turns[..n + 1]) == before + Attempts(turns[..n]) + [AttemptOf(turns[n])];
    FailureCounterStep(before + Attempts(turns[..n]), AttemptOf(turns[n]));
  }

  class RedisReader {
    const subscription: Subscription
    const topics: seq<Topic>
    var state: ReaderState
    var pubSub: bool           // pubSubConn != nil
    var topicsLen: nat
    var errors: nat
    var sent: seq<int>         // results handed to Subscription.SendData that marshalled
    ghost var attempts: seq<Attempt>
    ghost var received: seq<RedisMessage>

    ghost predicate Valid()
      reads this
    {
      errors == ConsecutiveFailures(attempts) && sent == Delivered(received)
    }

    constructor (subscription: Subscription, topics: seq<Topic>)
      ensures Valid() && state == Unknown && !pubSub && errors == 0 && sent == [] && attempts == []
      ensures this.subscription == subscription && this.topics == topics
    {
      this.subscription, this.topics := subscription, topics;
      state, pubSub, topicsLen, errors, sent := Unknown, false, 0, 0, [];
      attempts, received := [], [];
    }

    /** reader.go 157: closing a closed reader does nothing. */
    method Close()
      modifies this`state, this`pubSub
      ensures state == Closed
      ensures pubSub == (old(pubSub) && old(state) == Closed)
    {
      if state == Closed {
        return;
      }
      state := Closed;
      if pubSub {
        pubSub := false;
      }
    }

    /** reader.go 117: fails with Receive, otherwise handles one event. `all` reports
        the branch for "all subscriptions have been subscribed". */
    method ReadIteration(e: RedisEvent) returns (ok: bool, all: bool)
      requires Valid()
      modifies this`sent, this`received
      ensures Valid() && ok == !e.Failure?
      ensures all <==> e.SubscriptionAck? && e.count == topicsLen
      ensures received == old(received) + (if e.Incoming? then [e.message] else [])
    {
      ok, all := true, false;
      match e
      case SubscriptionAck(count) => all := count == topicsLen;
      case Incoming(m) =>
        DeliveredStep(received, m);
        if m.marshals {
          sent := sent + [m.result];
        }
        received := received + [m];
      case Failure => ok := false;
      case OtherEvent =>
    }

    /** The loop of reader.go 108. Its check of the state finds what it found on entry,
        since nobody else runs. */
    method ReceiveAll(events: seq<RedisEvent>)
      requires Valid()
      modifies this`sent, this`received
      ensures Valid() && received == old(received) + (if state == Closed then [] else Messages(events, 0))
    {
      var i := 0;
      ghost var goal := received + (if state == Closed then [] else Messages(events, 0));
      while state != Closed && i < |events|
        invariant 0 <= i <= |events| && Valid()
        invariant goal == received + (if state == Closed then [] else Messages(events, i))
        decreases |events| - i
      {
        MessagesStep(received, events, i);
        var ok, _ := ReadIteration(events[i]);
        if !ok {
          return;
        }
        i := i + 1;
      }
    }

    /** reader.go 69. `reaches`: the Conn.Close of line 97 gets to close this reader. */
    method ReadLoop(turn: Turn, reaches: bool)
      requires Valid()
      modifies this
      ensures Valid() && attempts == old(attempts) + [AttemptOf(turn)]
      ensures errors == if !turn.dial then old(errors) else if turn.subscribe then 0 else old(errors) + 1
      ensures topicsLen == if turn.dial then |topics| else old(topicsLen)
      ensures received == old(received)
                          + (if turn.dial && turn.subscribe && old(state) != Closed
                             then Messages(turn.events, 0) else [])
      ensures var closes := turn.dial && !turn.subscribe && old(errors) >= MAX_SUBSCRIPTION_ERRORS && reaches;
              && state == (if closes then Closed else old(state))
              && pubSub == ((turn.dial && turn.subscribe)
                            || (old(pubSub) && (closes ==> old(state) == Closed)))
    {
      FailureCounterStep(attempts, AttemptOf(turn));
      attempts := attempts + [AttemptOf(turn)];
      assert ConsecutiveFailures(attempts) == CounterAfter(old(errors), AttemptOf(turn));
      if !turn.dial {
        return;
      }
      topicsLen := |topics|;
      if !turn.subscribe {
        errors := errors + 1;
        if GivesUp(errors) && reaches {
          Close();
        }
        return;
      }
      errors := 0;
      pubSub := true;
      assert Valid();
      ReceiveAll(turn.events);
    }

    /** reader.go 63-66: how many of the turns are taken. When Close reaches the reader
        it stops right after the first turn that makes more than three Subscribe
        failures in a row, and not before; otherwise it takes every turn. */
    method ReadPump(turns: seq<Turn>, reaches: bool) returns (n: nat)
      requires Valid() && errors <= MAX_SUBSCRIPTION_ERRORS
      modifies this
      ensures Valid() && n <= |turns|
      ensures attempts == old(attempts) + Attempts(turns[..n])
      ensures errors == FailuresAfter(old(attempts), turns, n)
      ensures state == if n > 0 && reaches && GivesUp(errors) then Closed else Running
      ensures n < |turns| ==> state == Closed
      ensures reaches ==> forall k :: 0 <= k < n ==> !GivesUp(FailuresAfter(old(attempts), turns, k))
    {
      state := Running;
      n := 0;
      assert old(attempts) + Attempts(turns[..0]) == old(attempts);
      while state != Closed && n < |turns|
        invariant n <= |turns| && Valid()
        invariant attempts == old(attempts) + Attempts(turns[..n])
        invariant errors == FailuresAfter(old(attempts), turns, n)
        invariant state == if n > 0 && reaches && GivesUp(errors) then Closed else Running
        invariant n == 0 ==> !GivesUp(errors)
        invariant reaches ==> forall k :: 0 <= k < n ==> !GivesUp(FailuresAfter(old(attempts), turns, k))
        decreases |turns| - n
      {
        n := TakeTurn(old(attempts), turns, n, reaches);
      }
    }

    /** One turn of the loop of reader.go 64. */
    method TakeTurn(ghost before: seq<Attempt>, turns: seq<Turn>, n: nat, reaches: bool) returns (n': nat)
      requires Valid() && state == Running && n < |turns|
      requires attempts == before + Attempts(turns[..n]) && errors == FailuresAfter(before, turns, n)
      requires reaches ==> !GivesUp(errors)
      modifies this
      ensures n' == n + 1 && Valid()
      ensures attempts == before + Attempts(turns[..n']) && errors == FailuresAfter(before, turns, n')
      ensures state == if reaches && GivesUp(errors) then Closed else Running
    {
      FailuresStep(before, turns, n);
      ReadLoop(turns[n], reaches);
      n' := n + 1;
    }
  }

  /** With dials succeeding and every Subscribe failing, the count after k turns is k
      more than before. */
  lemma {:induction false} AllFailing(before: seq<Attempt>, turns: seq<Turn>, k: nat)
    requires k <= |turns| && forall i :: 0 <= i < |turns| ==> AttemptOf(turns[i]) == SubscribeFailed
    ensures FailuresAfter(before, turns, k) == ConsecutiveFailures(before) + k
  {
    if k == 0 {
      assert before + Attempts(turns[..0]) == before;
    } else {
      AllFailing(before, turns, k - 1);
      FailuresStep(before, turns, k - 1);
    }
  }

  /** Then, if Close reaches the reader, readPump ends after exactly four minus the
      counter turns, however many failing turns there would be; if Close does not, it
      takes every turn and goes on running. */
  method AllFailingReadPump(reader: RedisReader, turns: seq<Turn>, reaches: bool) returns (n: nat)
    requires reader.Valid() && reader.errors <= MAX_SUBSCRIPTION_ERRORS
    requires forall i :: 0 <= i < |turns| ==> AttemptOf(turns[i]) == SubscribeFailed
    requires |turns| >= FATAL_FAILURES - reader.errors
    modifies reader
    ensures reaches ==>
              n == FATAL_FAILURES - old(reader.errors) && reader.state == Closed && reader.errors == FATAL_FAILURES
    ensures !reaches ==> n == |turns| && reader.state == Running && reader.errors == old(reader.errors) + n
  {
    n := reader.ReadPump(turns, reaches);
    AllFailing(old(reader.attempts), turns, n);
    if n > FATAL_FAILURES - old(reader.errors) {
      AllFailing(old(reader.attempts), turns, FATAL_FAILURES - old(reader.errors));
    }
  }

  // ---------------------------------------------------------------------------
  // The handler
  // ---------------------------------------------------------------------------

  /** Make the requests of one Subscribe function on the subscriber. */
  method MakeRequests(subscriber: Subscriber, requested: seq<Topic>)
    modifies subscriber
    ensures subscriber.topics == AddAll(old(subscriber.topics), requested)
  {
    for i := 0 to |requested|
      invariant subscriber.topics == AddAll(old(subscriber.topics), requested[..i])
    {
      assert requested[..i + 1] == requested[..i] + [requested[i]];
      AddAllSplit(old(subscriber.topics), requested[..i], [requested[i]]);
      var _ := subscriber.SubscriberSubscribe(TopicValue(requested[i]));
    }
    assert requested[..|requested|] == requested;
  }

  lemma RequestsStep(outcomes: seq<FieldOutcome>, i: nat)
    requires i < |outcomes| && outcomes[i].Called?
    ensures Requests(outcomes[..i + 1]) == Requests(outcomes[..i]) + outcomes[i].requested
    ensures AddAll([], Requests(outcomes[..i + 1]))
            == AddAll(AddAll([], Requests(outcomes[..i])), outcomes[i].requested)
  {
    assert outcomes[..i + 1][..i] == outcomes[..i];
    AddAllSplit([], Requests(outcomes[..i]), outcomes[i].requested);
  }

  class SubscriptionHandler {
    var subscriptions: map<string, RedisReader>

    constructor ()
      ensures subscriptions == map[]
    {
      subscriptions := map[];
    }

    /** handler.go 48: either every field of the subscription was found, has a
        Subscribe and succeeded, and a new reader with the topics they requested is
        stored under the ID; or nothing is stored. */
    method HandleSubscriptionStart(sub: Subscription, outcomes: seq<FieldOutcome>) returns (ok: bool)
      requires |outcomes| == |sub.fields|
      modifies this`subscriptions
      ensures ok <==> forall i :: 0 <= i < |outcomes| ==> outcomes[i].Called? && !outcomes[i].failed
      ensures ok <==> StartTopics(outcomes).Some?
      ensures !ok ==> subscriptions == old(subscriptions)
      ensures ok ==>
                && sub.id in subscriptions
                && var reader := subscriptions[sub.id];
                && subscriptions == old(subscriptions)[sub.id := reader]
                && fresh(reader) && reader.Valid() && reader.state == Unknown && reader.subscription == sub
                && IsFirstOccurrences(reader.topics, Requests(outcomes))
                && StartTopics(outcomes) == Some(reader.topics)
    {
      var topics := CollectTopics(sub, outcomes);
      StartTopicsIs(outcomes);
      if topics.None? {
        return false;
      }
      TopicsAreFirstOccurrences(Requests(outcomes));
      var reader := new RedisReader(sub, topics.value);
      subscriptions := subscriptions[sub.id := reader];
      return true;
    }

    /** One field, handler.go 56-74. */
    method CollectField(subscriber: Subscriber, outcome: FieldOutcome) returns (ok: bool)
      modifies subscriber
      ensures ok <==> outcome.Called? && !outcome.failed
      ensures subscriber.topics
              == if outcome.Called? then AddAll(old(subscriber.topics), outcome.requested) else old(subscriber.topics)
    {
      match outcome
      case NotFound => return false;
      case NoSubscribe => return false;
      case Called(requested, failed) =>
        MakeRequests(subscriber, requested);
        return !failed;
    }

    /** The loop over the fields: the topics they requested, or nothing as soon as one fails. */
    method CollectTopics(sub: Subscription, outcomes: seq<FieldOutcome>) returns (topics: Option<seq<Topic>>)
      requires |outcomes| == |sub.fields|
      ensures topics.Some? <==> forall i :: 0 <= i < |outcomes| ==> outcomes[i].Called? && !outcomes[i].failed
      ensures topics.Some? ==> topics.value == AddAll([], Requests(outcomes))
    {
      var subscriber := new Subscriber();
      for i := 0 to |sub.fields|
        invariant fresh(subscriber)
        invariant forall k :: 0 <= k < i ==> outcomes[k].Called? && !outcomes[k].failed
        invariant subscriber.topics == AddAll([], Requests(outcomes[..i]))
      {
        var ok := CollectField(subscriber, outcomes[i]);
        if !ok {
          return None;
        }
        RequestsStep(outcomes, i);
      }
      assert outcomes[..|outcomes|] == outcomes;
      return Some(subscriber.topics);
    }

    /** handler.go 83: closes the reader mapped at the ID; the map, every other reader
        and the rest of this one stay as they are. */
    method HandleSubscriptionStop(sub: Subscription) returns (found: bool)
      modifies (if sub.id in subscriptions then {subscriptions[sub.id]} else {})`state
      modifies (if sub.id in subscriptions then {subscriptions[sub.id]} else {})`pubSub
      ensures found <==> sub.id in subscriptions
      ensures found ==>
                && subscriptions[sub.id].state == Closed
                && subscriptions[sub.id].pubSub
                   == (old(subscriptions[sub.id].pubSub) && old(subscriptions[sub.id].state) == Closed)
    {
      if sub.id !in subscriptions {
        return false;
      }
      subscriptions[sub.id].Close();
      return true;
    }

    /** handler.go 95: closes every reader in the map. */
    method HandleWebsocketClose()
      modifies subscriptions.Values`state, subscriptions.Values`pubSub
      ensures forall id :: id in subscriptions ==>
                && subscriptions[id].state == Closed
                && subscriptions[id].pubSub
                   == (old(subscriptions[id].pubSub) && old(subscriptions[id].state) == Closed)
    {
      var keys := subscriptions.Keys;
      while keys != {}
        invariant keys <= subscriptions.Keys
        invariant forall id :: id in subscriptions ==>
                    || (subscriptions[id].state == old(subscriptions[id].state)
                        && subscriptions[id].pubSub == old(subscriptions[id].pubSub))
                    || (subscriptions[id].state == Closed
                        && subscriptions[id].pubSub
                           == (old(subscriptions[id].pubSub) && old(subscriptions[id].state) == Closed))
        invariant forall id :: id in subscriptions && id !in keys ==> subscriptions[id].state == Closed
        decreases keys
      {
        var id :| id in keys;
        subscriptions[id].Close();
        keys := keys - {id};
      }
    }
  }
}

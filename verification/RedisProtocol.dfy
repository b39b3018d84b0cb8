/** What the Redis side of the library sees and counts (redis/handler.go,
    redis/reader.go). Dialling, subscribing and receiving are outcomes handed in. */
module RedisProtocol {
  import opened Options
  import opened Subscribers

  datatype ReaderState = Unknown | Running | Closed

  // A message received on a channel: the result of executing the subscription
  // on it, and whether that result marshals to JSON.
  datatype RedisMessage = RedisMessage(result: int, marshals: bool)

  datatype RedisEvent =
    | SubscriptionAck(count: nat)
    | Incoming(message: RedisMessage)
    | Failure
    | OtherEvent

  // How one turn of readLoop got on: no connection, Subscribe failed, or subscribed.
  datatype Attempt = DialFailed | SubscribeFailed | SubscribeOk

  const MAX_SUBSCRIPTION_ERRORS: nat := 3

  /** The count at which a reader calls Conn.Close. */
  const FATAL_FAILURES: nat := MAX_SUBSCRIPTION_ERRORS + 1

  /** More than three consecutive failures make the reader close the connection. */
  predicate GivesUp(errors: nat) {
    errors > MAX_SUBSCRIPTION_ERRORS
  }

  function CountFailures(attempts: seq<Attempt>): nat {
    if attempts == [] then 0
    else CountFailures(attempts[..|attempts| - 1])
         + (if attempts[|attempts| - 1] == SubscribeFailed then 1 else 0)
  }

  /** The attempts after the last successful Subscribe. */
  function SinceSuccess(attempts: seq<Attempt>): seq<Attempt> {
    if attempts == [] || attempts[|attempts| - 1] == SubscribeOk then []
    else SinceSuccess(attempts[..|attempts| - 1]) + [attempts[|attempts| - 1]]
  }

  /** Subscribe failures since the last success; dial failures neither count nor reset. */
  function ConsecutiveFailures(attempts: seq<Attempt>): nat {
    CountFailures(SinceSuccess(attempts))
  }

  /** How one attempt moves the counter (reader.go 70-105). */
  function CounterAfter(errors: nat, a: Attempt): nat {
    match a
    case DialFailed => errors
    case SubscribeFailed => errors + 1
    case SubscribeOk => 0
  }

  /** The counter that each attempt moves like this counts the failures since the last
      success. */
  lemma FailureCounterStep(attempts: seq<Attempt>, a: Attempt)
    ensures ConsecutiveFailures(attempts + [a]) == CounterAfter(ConsecutiveFailures(attempts), a)
  {
    var all := attempts + [a];
    assert all[..|all| - 1] == attempts;
    var since := SinceSuccess(attempts);
    assert (since + [a])[..|since|] == since;
  }

  /** Declaratively: the Subscribe failures that no success follows. */
  ghost function FailuresSince(attempts: seq<Attempt>): set<int> {
    set k | 0 <= k < |attempts| && attempts[k] == SubscribeFailed && SubscribeOk !in attempts[k..]
  }

  lemma FailuresSinceSnoc(init: seq<Attempt>, last: Attempt)
    ensures FailuresSince(init + [last]) ==
              match last
              case DialFailed => FailuresSince(init)
              case SubscribeFailed => FailuresSince(init) + {|init|}
              case SubscribeOk => {}
  {
    var all := init + [last];
    assert forall k :: 0 <= k < |init| ==> all[k..] == init[k..] + [last];
    assert all[|init|..] == [last];
  }

  lemma {:induction false} CountsFailuresSince(attempts: seq<Attempt>)
    ensures ConsecutiveFailures(attempts) == |FailuresSince(attempts)|
  {
    if attempts == [] {
      assert FailuresSince([]) == {};
    } else {
      var init, last := attempts[..|attempts| - 1], attempts[|attempts| - 1];
      CountsFailuresSince(init);
      FailureCounterStep(init, last);
      FailuresSinceSnoc(init, last);
      assert attempts == init + [last];
    }
  }

  /** The results sent for a run of received messages: one per message whose
      result marshals, in order. */
  function Delivered(received: seq<RedisMessage>): seq<int> {
    if received == [] then []
    else
      var last := received[|received| - 1];
      Delivered(received[..|received| - 1]) + (if last.marshals then [last.result] else [])
  }

  lemma DeliveredStep(received: seq<RedisMessage>, m: RedisMessage)
    ensures Delivered(received + [m]) == Delivered(received) + (if m.marshals then [m.result] else [])
    ensures Delivered([]) == []
  {
    assert (received + [m])[..|received|] == received;
  }

  // ---------------------------------------------------------------------------
  // Starting a subscription: the field loop
  // ---------------------------------------------------------------------------

  // What happens for one extracted field: it is not in the schema, it has no
  // Subscribe, or Subscribe ran, asked for topics and possibly failed.
  datatype FieldOutcome =
    | NotFound
    | NoSubscribe
    | Called(requested: seq<Topic>, failed: bool)

  predicate Succeeds(o: FieldOutcome) {
    o.Called? && !o.failed
  }

  function Requests(outcomes: seq<FieldOutcome>): seq<Topic> {
    if outcomes == [] then []
    else Requests(outcomes[..|outcomes| - 1])
         + (if outcomes[|outcomes| - 1].Called? then outcomes[|outcomes| - 1].requested else [])
  }

  lemma RequestsSnoc(outcomes: seq<FieldOutcome>, o: FieldOutcome)
    ensures Requests(outcomes + [o]) == Requests(outcomes) + (if o.Called? then o.requested else [])
    ensures Requests([]) == []
  {
    assert (outcomes + [o])[..|outcomes|] == outcomes;
  }

  /** The topics of the reader that is stored, or nothing when some field fails. */
  function StartTopics(outcomes: seq<FieldOutcome>): Option<seq<Topic>> {
    if forall o :: o in outcomes ==> Succeeds(o)
    then Some(AddAll([], Requests(outcomes)))
    else None
  }

  lemma StartTopicsIs(outcomes: seq<FieldOutcome>)
    ensures StartTopics(outcomes) ==
              if forall i :: 0 <= i < |outcomes| ==> outcomes[i].Called? && !outcomes[i].failed
              then Some(AddAll([], Requests(outcomes))) else None
  {
    assert forall i :: 0 <= i < |outcomes| ==> outcomes[i] in outcomes;
  }
}

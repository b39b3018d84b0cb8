/** The topic accumulator of a subscription (subscriber.go) and the Redis
    acknowledgements of its topics (redis/reader.go). */
module Subscribers {

  // StringTopic. Topics of other dynamic types are not part of this model.
  type Topic = string

  // What SubscriberSubscribe may be handed: an interface{} that is or is not a Topic.
  datatype Value = TopicValue(topic: Topic) | NotATopic

  datatype SubscribeResult = NoError | ErrInvalidTopic

  function Add(topics: seq<Topic>, t: Topic): seq<Topic> {
    if t in topics then topics else topics + [t]
  }

  /** The list after the requests have been made one by one on top of `topics`. */
  function AddAll(topics: seq<Topic>, requests: seq<Topic>): seq<Topic>
    decreases |requests|
  {
    if requests == [] then topics else AddAll(Add(topics, requests[0]), requests[1..])
  }

  ghost predicate NoDuplicates<T>(s: seq<T>) {
    forall i, j :: 0 <= i < j < |s| ==> s[i] != s[j]
  }

  function Elements<T>(s: seq<T>): set<T> {
    set x | x in s
  }

  /** Position of the first occurrence. */
  function FirstIndex<T(==)>(s: seq<T>, x: T): (k: nat)
    requires x in s
    ensures k < |s| && s[k] == x && x !in s[..k]
  {
    if s[0] == x then 0 else
      assert x in s[1..];
      var k := 1 + FirstIndex(s[1..], x);
      assert s[..k] == [s[0]] + s[1..][..k - 1];
      k
  }

  /** `topics` lists each request once, ordered by where it was first requested. */
  ghost predicate IsFirstOccurrences(topics: seq<Topic>, requests: seq<Topic>) {
    && NoDuplicates(topics)
    && (forall t :: t in topics <==> t in requests)
    && (forall i, j :: 0 <= i < j < |topics| && topics[i] in requests && topics[j] in requests
         ==> FirstIndex(requests, topics[i]) < FirstIndex(requests, topics[j]))
  }

  class Subscriber {
    var topics: seq<Topic>

    constructor ()
      ensures topics == []
    {
      topics := [];
    }

    method Subscribe(topic: Topic)
      modifies this
      ensures topics == if topic in old(topics) then old(topics) else old(topics) + [topic]
    {
      for i := 0 to |topics|
        invariant topics == old(topics)
        invariant topic !in topics[..i]
      {
        if topics[i] == topic {
          return;
        }
      }
      topics := topics + [topic];
    }

    method SubscriberSubscribe(value: Value) returns (r: SubscribeResult)
      modifies this
      ensures r == ErrInvalidTopic <==> value == NotATopic
      ensures topics == if value.TopicValue? && value.topic !in old(topics) then old(topics) + [value.topic]
                        else old(topics)
    {
      if value.NotATopic? {
        return ErrInvalidTopic;
      }
      Subscribe(value.topic);
      return NoError;
    }
  }

  // ---------------------------------------------------------------------------
  // The list agrees with a set, in first-request order
  // ---------------------------------------------------------------------------

  lemma {:induction false} AddAllSplit(topics: seq<Topic>, a: seq<Topic>, b: seq<Topic>)
    ensures AddAll(topics, a + b) == AddAll(AddAll(topics, a), b)
    decreases |a|
  {
    if a == [] {
      assert a + b == b;
    } else {
      assert (a + b)[1..] == a[1..] + b;
      AddAllSplit(Add(topics, a[0]), a[1..], b);
    }
  }

  lemma FirstIndexUnique(s: seq<Topic>, x: Topic, k: nat)
    requires k < |s| && s[k] == x && x !in s[..k]
    ensures FirstIndex(s, x) == k
  {
    var f := FirstIndex(s, x);
    assert forall j :: 0 <= j < k ==> s[j] == s[..k][j] && s[j] != x;
    assert forall j :: 0 <= j < f ==> s[j] == s[..f][j] && s[j] != x;
  }

  lemma FirstIndexOfPrefix(s: seq<Topic>, x: Topic, y: Topic)
    requires x in s
    ensures FirstIndex(s + [y], x) == FirstIndex(s, x)
  {
    var k := FirstIndex(s, x);
    assert (s + [y])[..k] == s[..k];
    FirstIndexUnique(s + [y], x, k);
  }

  /** After any sequence of requests the list is duplicate-free, holds exactly the
      requested topics and keeps first-request order. */
  lemma {:induction false} TopicsAreFirstOccurrences(requests: seq<Topic>)
    ensures IsFirstOccurrences(AddAll([], requests), requests)
    decreases |requests|
  {
    if requests != [] {
      var init, last := requests[..|requests| - 1], requests[|requests| - 1];
      TopicsAreFirstOccurrences(init);
      assert requests == init + [last];
      AddAllSplit([], init, [last]);
      var before, after := AddAll([], init), AddAll([], requests);
      assert after == Add(before, last);
      forall i, j | 0 <= i < j < |after| && after[i] in requests && after[j] in requests
        ensures FirstIndex(requests, after[i]) < FirstIndex(requests, after[j])
      {
        assert after[i] == before[i];
        FirstIndexOfPrefix(init, after[i], last);
        if j < |before| {
          FirstIndexOfPrefix(init, after[j], last);
        } else {
          assert after[j] == last && last !in init;
          assert requests[..|init|] == init;
          FirstIndexUnique(requests, last, |init|);
        }
      }
    }
  }

  lemma {:induction false} DistinctCount<T>(s: seq<T>)
    requires NoDuplicates(s)
    ensures |Elements(s)| == |s|
  {
    if s != [] {
      var init, last := s[..|s| - 1], s[|s| - 1];
      DistinctCount(init);
      assert s == init + [last];
      assert Elements(s) == Elements(init) + {last};
    }
  }

  // ---------------------------------------------------------------------------
  // Acknowledgements
  // ---------------------------------------------------------------------------

  /** Redis' count in the k-th acknowledgement on a fresh connection: the number
      of distinct channels subscribed so far (an assumption about Redis). */
  function AckCount(channels: seq<Topic>, k: nat): nat
    requires k <= |channels|
  {
    |Elements(channels[..k])|
  }

  /** The "all subscribed" branch compares the count with len(topics): for the
      topics of a subscriber it is taken at the last acknowledgement and no other. */
  lemma AllSubscribedAtLastAck(requests: seq<Topic>, k: nat)
    requires 1 <= k <= |AddAll([], requests)|
    ensures AckCount(AddAll([], requests), k) == |AddAll([], requests)| <==> k == |AddAll([], requests)|
    ensures AckCount(AddAll([], requests), k) != 0
  {
    TopicsAreFirstOccurrences(requests);
    DistinctCount(AddAll([], requests)[..k]);
  }
}

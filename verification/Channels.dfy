/** Go's buffered channels, as far as connection.go uses them. `put` and `got`
    are the logs of everything ever enqueued and dequeued. */
module Channels {
  const CAPACITY: nat := 10

  datatype Chan<T> = Chan(buf: seq<T>, closed: bool, put: seq<T>, got: seq<T>) {
    /** A send on an open channel proceeds only below capacity; otherwise it blocks. */
    predicate CanSend() {
      !closed && |buf| < CAPACITY
    }

    predicate Full() {
      !closed && |buf| == CAPACITY
    }

    function Send(m: T): Chan<T>
      requires CanSend()
    {
      Chan(buf + [m], closed, put + [m], got)
    }

    /** A receive drains the buffer first, also on a closed channel. */
    function Receive(): Chan<T>
      requires buf != []
    {
      Chan(buf[1..], closed, put, got + [buf[0]])
    }

    function Close(): Chan<T> {
      this.(closed := true)
    }

    /** What was enqueued is what was dequeued followed by what is pending. */
    ghost predicate Conserved() {
      put == got + buf && |buf| <= CAPACITY
    }
  }

  function Open<T>(): Chan<T> {
    Chan([], false, [], [])
  }

  lemma SendConserves<T>(c: Chan<T>, m: T)
    requires c.Conserved() && c.CanSend()
    ensures c.Send(m).Conserved()
  {
    assert c.got + (c.buf + [m]) == (c.got + c.buf) + [m];
  }

  lemma ReceiveConserves<T>(c: Chan<T>)
    requires c.Conserved() && c.buf != []
    ensures c.Receive().Conserved()
    ensures |c.got| < |c.put| && c.put[|c.got|] == c.buf[0]
  {
    assert c.buf == [c.buf[0]] + c.buf[1..];
    assert c.got + c.buf == (c.got + [c.buf[0]]) + c.buf[1..];
  }
}

/**
 The registry of waiting long-poll connections: one queue per channel topic.
 A subscription request appends its connection to the topic's queue; an event
 on a topic pops every queued connection (last in, first out) and answers each
 with the event, a failure on one connection being rescued so that the rest of
 the queue is still served.

 Connections are opaque ids. Writing the response and closing the socket are
 recorded as `Action`s in the order they happen; whether a write or a close
 fails for a connection is supplied by the caller as `failures`.
 */
module Distribution {
  import opened Channels

  type ConnId = nat

  /** The two rescue clauses: `Reel::SocketError` (the client has gone away,
      logged at debug level) and any other error (logged as an error). */
  datatype ErrorKind = SocketError | OtherError

  /** Which step of answering a connection raises. */
  datatype Failure = RespondFails(kind: ErrorKind) | CloseFails(kind: ErrorKind)

  /** What happens to a connection while a queue is drained. */
  datatype Action =
    | Responded(conn: ConnId, payload: Event)   // 200 response with the payload written
    | Closed(conn: ConnId)                      // connection closed after the response
    | Rescued(conn: ConnId, kind: ErrorKind)    // an error was raised, caught and logged

  /** The topics the registry keeps a queue for. */
  function Topics(channels: seq<int>): set<string> {
    set c | c in channels :: ChannelTopic(c)
  }

  /** Answering one popped connection: respond, then close; an error in
      either step ends the attempt with its rescue. */
  function Serve(c: ConnId, payload: Event, failures: map<ConnId, Failure>): seq<Action> {
    if c in failures && failures[c].RespondFails? then [Rescued(c, failures[c].kind)]
    else if c in failures then [Responded(c, payload), Rescued(c, failures[c].kind)]
    else [Responded(c, payload), Closed(c)]
  }

  /** Draining a whole queue by repeated `pop`: the last connection queued is
      answered first. */
  function Batch(q: seq<ConnId>, payload: Event, failures: map<ConnId, Failure>): seq<Action>
    decreases |q|
  {
    if q == [] then [] else Serve(q[|q| - 1], payload, failures) + Batch(q[..|q| - 1], payload, failures)
  }

  function Reverse(q: seq<ConnId>): seq<ConnId>
    decreases |q|
  {
    if q == [] then [] else [q[|q| - 1]] + Reverse(q[..|q| - 1])
  }

  /** The connections whose response write does not raise, in queue order. */
  function Writable(q: seq<ConnId>, failures: map<ConnId, Failure>): seq<ConnId>
    decreases |q|
  {
    if q == [] then []
    else if q[|q| - 1] in failures && failures[q[|q| - 1]].RespondFails? then Writable(q[..|q| - 1], failures)
    else Writable(q[..|q| - 1], failures) + [q[|q| - 1]]
  }

  /** The connections whose handling ended (closed or rescued), in order. */
  function Settled(out: seq<Action>): seq<ConnId> {
    if out == [] then []
    else (if out[0].Responded? then [] else [out[0].conn]) + Settled(out[1..])
  }

  /** The connections that were written a response, in order. */
  function Answered(out: seq<Action>): seq<ConnId> {
    if out == [] then []
    else (if out[0].Responded? then [out[0].conn] else []) + Answered(out[1..])
  }

  lemma {:induction false} SettledAppend(a: seq<Action>, b: seq<Action>)
    ensures Settled(a + b) == Settled(a) + Settled(b)
  {
    if a != [] {
      assert (a + b)[0] == a[0];
      assert (a + b)[1..] == a[1..] + b;
      SettledAppend(a[1..], b);
    } else {
      assert a + b == b;
    }
  }

  lemma {:induction false} AnsweredAppend(a: seq<Action>, b: seq<Action>)
    ensures Answered(a + b) == Answered(a) + Answered(b)
  {
    if a != [] {
      assert (a + b)[0] == a[0];
      assert (a + b)[1..] == a[1..] + b;
      AnsweredAppend(a[1..], b);
    } else {
      assert a + b == b;
    }
  }

  /** Every connection in the queue at entry is settled exactly once, in pop
      order, whether or not answering it raised: a failure never stops the
      drain. */
  lemma {:induction false} BatchSettlesEveryConnection(q: seq<ConnId>, payload: Event, failures: map<ConnId, Failure>)
    ensures Settled(Batch(q, payload, failures)) == Reverse(q)
    decreases |q|
  {
    if q != [] {
      var c := q[|q| - 1];
      SettledAppend(Serve(c, payload, failures), Batch(q[..|q| - 1], payload, failures));
      BatchSettlesEveryConnection(q[..|q| - 1], payload, failures);
    }
  }

  /** The connections answered are exactly the queued ones whose write does
      not raise, each once, in pop order. */
  lemma {:induction false} BatchAnswersWritable(q: seq<ConnId>, payload: Event, failures: map<ConnId, Failure>)
    ensures Answered(Batch(q, payload, failures)) == Reverse(Writable(q, failures))
    decreases |q|
  {
    if q != [] {
      var c := q[|q| - 1];
      var rest := q[..|q| - 1];
      AnsweredAppend(Serve(c, payload, failures), Batch(rest, payload, failures));
      BatchAnswersWritable(rest, payload, failures);
      var w := Writable(rest, failures);
      if !(c in failures && failures[c].RespondFails?) {
        assert (w + [c])[..|w + [c]| - 1] == w;
      }
    }
  }

  /** Every response of a drain carries the event being distributed, and every
      action concerns a connection that was in the drained queue. */
  lemma {:induction false} BatchStaysWithinQueue(q: seq<ConnId>, payload: Event, failures: map<ConnId, Failure>)
    ensures forall a :: a in Batch(q, payload, failures) ==> a.conn in q
    ensures forall a :: a in Batch(q, payload, failures) && a.Responded? ==> a.payload == payload
    decreases |q|
  {
    if q != [] {
      var rest := q[..|q| - 1];
      BatchStaysWithinQueue(rest, payload, failures);
      assert forall c :: c in rest ==> c in q;
    }
  }

  /** Reversal keeps every connection and its number of occurrences. */
  lemma {:induction false} ReversePermutes(q: seq<ConnId>)
    ensures multiset(Reverse(q)) == multiset(q)
    decreases |q|
  {
    if q != [] {
      ReversePermutes(q[..|q| - 1]);
      assert q == q[..|q| - 1] + [q[|q| - 1]];
    }
  }

  /** A connection queued once, whose write succeeds, is answered exactly once
      with the payload. */
  lemma AnsweredOnce(q: seq<ConnId>, payload: Event, failures: map<ConnId, Failure>, c: ConnId)
    requires multiset(q)[c] == 1
    requires c !in failures || !failures[c].RespondFails?
    ensures multiset(Answered(Batch(q, payload, failures)))[c] == 1
  {
    BatchAnswersWritable(q, payload, failures);
    WritableKeeps(q, failures, c);
    ReversePermutes(Writable(q, failures));
  }

  /** Filtering out failing writers leaves the count of a writable connection unchanged. */
  lemma {:induction false} WritableKeeps(q: seq<ConnId>, failures: map<ConnId, Failure>, c: ConnId)
    requires c !in failures || !failures[c].RespondFails?
    ensures multiset(Writable(q, failures))[c] == multiset(q)[c]
    decreases |q|
  {
    if q != [] {
      var rest := q[..|q| - 1];
      WritableKeeps(rest, failures, c);
      assert q == rest + [q[|q| - 1]];
    }
  }

  /** The `begin`/`rescue` block for one popped connection: write the
      response, then close; an error from either step is caught, so the caller
      always goes on with the next connection. It repeats the case split of
      `Serve` as statements so that the drain loop's body stays small enough
      for the verifier. */
  method Answer(conn: ConnId, payload: Event, failures: map<ConnId, Failure>) returns (step: seq<Action>)
    ensures step == Serve(conn, payload, failures)
  {
    if conn in failures && failures[conn].RespondFails? {
      step := [Rescued(conn, failures[conn].kind)];
    } else {
      step := [Responded(conn, payload)];
      if conn in failures {
        step := step + [Rescued(conn, failures[conn].kind)];
      } else {
        step := step + [Closed(conn)];
      }
    }
  }

  class DistributeEvents {
    /** Topic to the connections waiting on it, oldest first. */
    var queues: map<string, seq<ConnId>>
    /** The configured topics; the key set never changes. */
    ghost const topics: set<string>

    ghost predicate Valid()
      reads this
    {
      queues.Keys == topics
    }

    /** `initialize`: one empty queue per configured channel's topic and no
        other queue. */
    constructor (channels: seq<int>)
      ensures Valid() && topics == Topics(channels)
      ensures forall t :: t in queues ==> queues[t] == []
    {
      var table: map<string, seq<ConnId>> := map[];
      var i := 0;
      while i < |channels|
        invariant 0 <= i <= |channels|
        invariant table.Keys == Topics(channels[..i])
        invariant forall t :: t in table ==> table[t] == []
      {
        assert channels[..i + 1] == channels[..i] + [channels[i]];
        table := table[ChannelTopic(channels[i]) := []];
        i := i + 1;
      }
      assert channels[..i] == channels;
      queues := table;
      topics := Topics(channels);
    }

    /** `request_event`: appends the connection to the end of the queue named
        by the channel string (`to_s` of a string is the string itself). A
        channel with no queue raises in the source; here `ok` is false and no
        queue changes. */
    method RequestEvent(conn: ConnId, channel: string) returns (ok: bool)
      requires Valid()
      modifies this
      ensures Valid()
      ensures ok <==> channel in old(queues)
      ensures ok ==> queues == old(queues)[channel := old(queues)[channel] + [conn]]
      ensures !ok ==> queues == old(queues)
    {
      var topic := channel;
      ok := topic in queues;
      if ok {
        queues := queues[topic := queues[topic] + [conn]];
      }
    }

    /** `distribute`: on a topic with a queue, pops every connection and
        answers it with the payload, rescuing a failure on one connection and
        going on with the next; the queue ends empty and no other queue
        changes. On a topic with no queue nothing happens. */
    method Distribute(topic: string, payload: Event, failures: map<ConnId, Failure>) returns (out: seq<Action>)
      requires Valid()
      modifies this
      ensures Valid()
      ensures topic in old(queues) ==> queues == old(queues)[topic := []]
      ensures topic in old(queues) ==> out == Batch(old(queues)[topic], payload, failures)
      ensures topic !in old(queues) ==> queues == old(queues) && out == []
    {
      out := [];
      if topic in queues {
        ghost var q0 := queues[topic];
        var pending := queues[topic];
        while |pending| > 0
          invariant queues == old(queues)[topic := pending]
          invariant out + Batch(pending, payload, failures) == Batch(q0, payload, failures)
          decreases |pending|
        {
          ghost var before, rest := out, pending;
          var conn := pending[|pending| - 1];
          pending := pending[..|pending| - 1];
          queues := queues[topic := pending];
          var step := Answer(conn, payload, failures);
          out := out + step;
          assert Batch(rest, payload, failures) == step + Batch(pending, payload, failures);
        }
      }
    }
  }
}

/**
 The web server's part in the long poll: deciding whether an `/events`
 request subscribes its connection or is answered 404, and the `/increasing`
 endpoint's growing list. The query string arrives already parsed, as the map
 from each key to all of its values.
 */
module WebServing {
  import opened RubyConversions
  import opened Channels
  import opened Distribution

  /** A parsed query string: each key with its values in order of appearance. */
  type Query = map<string, seq<string>>

  /** What `handle_events` does with a request: hand the connection to the
      registry under `topic`, or answer 404. */
  datatype Decision = Register(topic: string) | Reject

  /** What the client sees at once: nothing yet (held open), or a 404. */
  datatype Response = Held | NotFound

  /** The values of `channel`; a key that is absent reads as no values, as
      with the default of the hash a query parser returns. */
  function ChannelValues(query: Query): seq<string> {
    if "channel" in query then query["channel"] else []
  }

  /** The decision of `handle_events` as the source makes it: the first
      `channel` value must read, through `to_i(10)`, as a configured channel;
      the key then registered is that raw value itself. */
  function Subscription(channels: seq<int>, query: Query): (d: Decision)
    ensures d.Register? <==> |ChannelValues(query)| > 0 && ToI(ChannelValues(query)[0]) in channels
    ensures d.Register? ==> d.topic == ChannelValues(query)[0]
  {
    var values := ChannelValues(query);
    if |values| > 0 && ToI(values[0]) in channels then Register(values[0]) else Reject
  }

  /** Every configured channel, asked for by its own topic, is accepted and
      registered under a topic that has a queue. */
  lemma SubscriptionAcceptsConfigured(channels: seq<int>, query: Query, c: int)
    requires c in channels
    requires |ChannelValues(query)| > 0 && ChannelValues(query)[0] == ChannelTopic(c)
    ensures Subscription(channels, query) == Register(ChannelTopic(c))
    ensures ChannelTopic(c) in Topics(channels)
  {
  }

  /** A channel id that is not configured, asked for by its own topic, is
      answered 404. */
  lemma SubscriptionRejectsUnknown(channels: seq<int>, query: Query, n: int)
    requires n !in channels
    requires |ChannelValues(query)| > 0 && ChannelValues(query)[0] == ChannelTopic(n)
    ensures Subscription(channels, query) == Reject
  {
  }

  /** The decision as written registers some values under a topic that has no
      queue: "02" reads as channel 2 but is not the topic "2". */
  lemma LeadingZeroRegistersUnqueuedTopic()
    ensures Subscription([1, 2, 3], map["channel" := ["02"]]) == Register("02")
    ensures "02" !in Topics([1, 2, 3])
  {
    var s := "02";
    assert SkipSpace(s) == s;
    assert DigitRun(s[1..]) == "2";
    assert DigitRun(s) == s;
    assert Value(s) == 2 by {
      assert s[..1] == "0";
      assert Value("0") == 0 by { assert "0"[..0] == ""; }
    }
    assert ToI(s) == 2;
    forall c | c in [1, 2, 3]
      ensures ChannelTopic(c) != s
    {
      assert |ChannelTopic(c)| == 1;
    }
  }

  /** The decision as evidently intended: accept exactly what the source
      accepts, but register under the topic of the channel that was read. */
  function CanonicalSubscription(channels: seq<int>, query: Query): (d: Decision)
    ensures d.Register? <==> Subscription(channels, query).Register?
    ensures d.Register? ==> d.topic in Topics(channels)
    ensures d.Register? ==> ToI(d.topic) == ToI(ChannelValues(query)[0])
  {
    match Subscription(channels, query)
    case Reject => Reject
    case Register(raw) => Register(ChannelTopic(ToI(raw)))
  }

  /** On a value that already is a topic, the corrected decision and the
      source's decision coincide. */
  lemma SubscriptionsAgreeOnTopics(channels: seq<int>, query: Query)
    requires |ChannelValues(query)| > 0 && ChannelValues(query)[0] in Topics(channels)
    ensures Subscription(channels, query).Register?
    ensures CanonicalSubscription(channels, query) == Subscription(channels, query)
  {
    var raw := ChannelValues(query)[0];
    var c :| c in channels && ChannelTopic(c) == raw;
  }

  /** The list `[1, 2, ..., n]`. */
  function Ascending(n: nat): (s: seq<int>)
    ensures |s| == n
  {
    seq(n, i => i + 1)
  }

  class WebServer {
    const channels: seq<int>
    /** The list behind `/increasing`; it grows by one element per request. */
    var increasingData: seq<int>

    ghost predicate Valid()
      reads this
    {
      increasingData == Ascending(|increasingData|)
    }

    /** The configured channels are 1, 2 and 3; the list starts empty. Host,
        port and the sources and registry it starts are not part of this. */
    constructor ()
      ensures Valid()
      ensures channels == [1, 2, 3] && increasingData == []
    {
      channels := [1, 2, 3];
      increasingData := [];
    }

    /** `increasing_payload`: appends one more than the current length; after
        the n-th call the list is `[1, ..., n]`. */
    method IncreasingPayload() returns (payload: seq<int>)
      requires Valid()
      modifies this
      ensures Valid()
      ensures increasingData == old(increasingData) + [|old(increasingData)| + 1]
      ensures payload == increasingData == Ascending(|old(increasingData)| + 1)
    {
      var newItem := |increasingData| + 1;
      increasingData := increasingData + [newItem];
      payload := increasingData;
    }

    /** `handle_events`: a request whose first `channel` value reads as a
        configured channel is held open and its raw value is handed to the
        registry as the topic; if that topic has a queue the connection is
        appended to it, otherwise no queue changes (the source raises in the
        registry then, and the connection is never answered). Any other
        request is answered 404 and changes no queue. */
    method HandleEvents(conn: ConnId, query: Query, registry: DistributeEvents) returns (resp: Response)
      requires registry.Valid() && registry.topics == Topics(channels)
      modifies registry
      ensures registry.Valid()
      ensures resp == Held <==> Subscription(channels, query).Register?
      ensures resp == Held && Subscription(channels, query).topic in old(registry.queues) ==>
        var t := Subscription(channels, query).topic;
        registry.queues == old(registry.queues)[t := old(registry.queues)[t] + [conn]]
      ensures resp == Held && Subscription(channels, query).topic !in old(registry.queues) ==>
        registry.queues == old(registry.queues)
      ensures resp == NotFound ==> registry.queues == old(registry.queues)
    {
      var validChannel := false;
      var decision := Subscription(channels, query);
      if decision.Register? {
        validChannel := true;
        var queued := registry.RequestEvent(conn, decision.topic);
      }
      resp := if validChannel then Held else NotFound;
    }

    /** `handle_events` with the corrected topic: the same requests are held,
        and each held connection is appended to the queue of the channel its
        value reads as, which always exists; any other request is answered
        404 and changes no queue. */
    method HandleEventsCorrected(conn: ConnId, query: Query, registry: DistributeEvents) returns (resp: Response)
      requires registry.Valid() && registry.topics == Topics(channels)
      modifies registry
      ensures registry.Valid()
      ensures resp == Held <==> Subscription(channels, query).Register?
      ensures resp == Held ==>
        var t := CanonicalSubscription(channels, query).topic;
        t in old(registry.queues) && registry.queues == old(registry.queues)[t := old(registry.queues)[t] + [conn]]
      ensures resp == NotFound ==> registry.queues == old(registry.queues)
    {
      var validChannel := false;
      var decision := CanonicalSubscription(channels, query);
      if decision.Register? {
        validChannel := true;
        var queued := registry.RequestEvent(conn, decision.topic);
      }
      resp := if validChannel then Held else NotFound;
    }
  }

  /** Channel 2 is queued and published under "2", which reads back as 2. */
  lemma TopicOfChannelTwo()
    ensures ChannelTopic(2) == "2" && ToI("2") == 2
    ensures "2" in Topics([1, 2, 3])
    ensures Subscription([1, 2, 3], map["channel" := ["2"]]) == Register("2")
  {
    assert ToS(2) == "2";
  }

  /** A client subscribes to channel 2 with no one else waiting; channel 2's
      source fires its first event; the client gets exactly that event and
      its connection is closed. */
  method ChannelTwoScenario(time: Timestamp, draw: int)
    requires 0 <= draw < 8
  {
    TopicOfChannelTwo();
    var server := new WebServer();
    var registry := new DistributeEvents(server.channels);
    var resp := server.HandleEvents(7, map["channel" := ["2"]], registry);
    assert resp == Held && registry.queues["2"] == [7];
    FirstEventOnChannelTwo(registry, time, draw);
  }

  /** The second half of the scenario: with connection 7 alone in queue "2",
      channel 2's first event reaches it and empties the queue. */
  method FirstEventOnChannelTwo(registry: DistributeEvents, time: Timestamp, draw: int)
    requires 0 <= draw < 8
    requires registry.Valid() && "2" in registry.queues && registry.queues["2"] == [7]
    modifies registry
  {
    TopicOfChannelTwo();
    var source := new ChannelSource(2, draw);
    var e := source.PublishEvent(time, draw);
    assert e == Event("2", 1, time);
    var out := registry.Distribute(source.channel, e, map[]);
    assert out == [Responded(7, Event("2", 1, time)), Closed(7)];
    assert registry.queues["2"] == [];
  }

  /** A client asks for channel "02": the request is held open, but no queue
      gains the connection, so no event will ever answer it. */
  method LeadingZeroScenario()
  {
    LeadingZeroRegistersUnqueuedTopic();
    var server := new WebServer();
    var registry := new DistributeEvents(server.channels);
    var before := registry.queues;
    var resp := server.HandleEvents(7, map["channel" := ["02"]], registry);
    assert resp == Held && registry.queues == before;
  }
}

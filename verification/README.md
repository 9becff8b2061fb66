# Long-poll channel registry of reel_tests

A Dafny model of the event-distribution core of `reel_tests.rb`, a small
long-poll server. Clients ask for `/events?channel=<id>`. A valid request parks
its connection in the queue of that channel's topic. One periodic source per
channel publishes numbered events. Each event drains its topic's queue: every
waiting connection gets the event and is closed.

- `RubyConversions` models `Integer#to_s` and `String#to_i(10)` on strings. The
  registry's keys come from `to_s`. The server's validity check goes through `to_i`.
- `Channels` holds the `ChannelSource` class (its topic, its event counter and the
  events it has emitted), the `Event` record and `rand_delay`.
- `Distribution` holds the `DistributeEvents` class: a map from topic to a
  sequence of connection ids. `RequestEvent` appends to a queue. `Distribute`
  drains a queue in a `while` loop of pops. `Serve` and `Batch` specify the drain;
  the lemmas beside them prove that each popped connection is handled exactly
  once, in pop order, and that a failure on one connection does not stop the drain.
- `WebServing` holds the subscription decision of `handle_events`, a corrected
  version of it, and the `WebServer` class with `/increasing`'s growing list.

Connections are opaque ids. Responding and closing are recorded as `Action`s.
Whether responding to or closing a connection raises is an input map from
connection to `Failure`. The publish/subscribe hop from a source to the
registry is a direct call to `Distribute`.

Behaviour as the code has it:
- The queue is drained with `pop`, so the last connection queued is answered
  first. The model states this order; it is not an unordered set.
- The validity check compares `to_i(10)` of the first `channel` value with the
  configured numbers. The key then registered is the raw value, not the
  number's `to_s`. See "## Findings".

## Model

| member | source | states |
|---|---|---|
| `RubyConversions.ToI` | reel_tests.rb:61 | `String#to_i(10)`: skips ASCII white space (space, tab, newline, vertical tab, form feed, carriage return), reads one optional sign, an optional `0d` prefix and the leading digits with single underscores between them; a value that starts with anything else reads as 0, and an unsigned value never reads as negative |
| `RubyConversions.ToIOfDigits` | reel_tests.rb:61 | a string made only of digits reads as the number its digits denote |
| `RubyConversions.ToS` | reel_tests.rb:86 | `Integer#to_s`: a leading minus exactly for negative numbers, then decimal digits with no leading zero except for 0 itself |
| `RubyConversions.ToIOfToS` | reel_tests.rb:61 | reading back a channel's topic with `to_i(10)` gives the channel number, for every integer |
| `RubyConversions.ToSInjective` | reel_tests.rb:85-87 | two numbers with the same `to_s` are equal, so the configured channels get distinct topics |
| `RubyConversions.DigitRunOfDigits` | reel_tests.rb:61 | `to_i`'s digit scan reads a string of digits whole |
| `RubyConversions.ValueOfNatToS` | reel_tests.rb:61 | the decimal digits `to_s` writes denote the number |
| `Channels.ChannelTopic` | reel_tests.rb:85-87 | the topic of a channel reads back, through `to_i(10)`, as that channel |
| `Channels.ChannelTopicInjective` | reel_tests.rb:85-87 | distinct channels have distinct topics |
| `Channels.RandDelay` | reel_tests.rb:105-107 | the delay between two events lies in 4..11 and is 4 plus the draw of `rand(8)` |
| `Channels.RandDelayCoversRange` | reel_tests.rb:105-107 | every delay from 4 to 11 is reached by some draw |
| `Channels.CountersIncrease` | reel_tests.rb:95-96 | within one source's run, a later event has a larger counter, larger by the distance between the two events |
| `Channels.ChannelSource.constructor` | reel_tests.rb:88-93 | a new source takes its channel's topic, has counter 0, has emitted nothing, and `schedule` arms the first delay with `RandDelay` of the draw |
| `Channels.ChannelSource.PublishEvent` | reel_tests.rb:94-107 | the counter goes up by one before the event is built, so the k-th event carries counter k and the source's channel; `schedule` re-arms the delay with `RandDelay` of the draw |
| `Distribution.Answer` | reel_tests.rb:125-132 | answering one popped connection writes the response and then closes it; an error from either step is rescued and recorded with its kind (`Serve`) |
| `Distribution.BatchSettlesEveryConnection` | reel_tests.rb:123-133 | every connection in the queue at entry is settled (closed or rescued) exactly once, in pop order, whatever fails |
| `Distribution.BatchAnswersWritable` | reel_tests.rb:123-127 | the connections written a response are exactly the queued ones whose write does not raise, each once, last queued first |
| `Distribution.BatchStaysWithinQueue` | reel_tests.rb:121-134 | a drain touches no connection outside the drained queue, and every response carries the published payload |
| `Distribution.AnsweredOnce` | reel_tests.rb:123-127 | a connection queued once whose write succeeds is responded to exactly once |
| `Distribution.DistributeEvents.constructor` | reel_tests.rb:113-120 | every configured channel's topic has an empty queue and no other topic has one |
| `Distribution.DistributeEvents.RequestEvent` | reel_tests.rb:136-139 | the connection is appended to the end of its topic's queue and no other queue changes; a topic with no queue is reported and changes nothing |
| `Distribution.DistributeEvents.Distribute` | reel_tests.rb:121-135 | on a topic with a queue, the actions are `Batch` of that queue, the queue ends empty and no other queue changes; on a topic with no queue nothing changes and nobody is answered |
| `WebServing.Subscription` | reel_tests.rb:55-71 | the connection is registered exactly when `channel` has a value whose first `to_i(10)` is a configured channel, and then under that raw value; otherwise 404 |
| `WebServing.SubscriptionAcceptsConfigured` | reel_tests.rb:59-65 | asking for a configured channel by its topic registers under that topic, which has a queue |
| `WebServing.SubscriptionRejectsUnknown` | reel_tests.rb:59-70 | a channel id that is not configured, asked for by its topic, is answered 404 |
| `WebServing.LeadingZeroRegistersUnqueuedTopic` | reel_tests.rb:60-65 | `channel=02` passes the check and is registered under "02", which has no queue |
| `WebServing.CanonicalSubscription` | reel_tests.rb:59-65 | accepts exactly what the source accepts, and registers under a topic that has a queue and reads as the requested channel |
| `WebServing.SubscriptionsAgreeOnTopics` | reel_tests.rb:59-65 | when the value already is a configured topic, the corrected and the original decisions coincide |
| `WebServing.WebServer.constructor` | reel_tests.rb:18-28 | the configured channels are 1, 2, 3 and the `/increasing` list starts empty |
| `WebServing.WebServer.IncreasingPayload` | reel_tests.rb:75-79 | each call appends its new length, so the n-th call returns `[1, ..., n]` |
| `WebServing.WebServer.HandleEvents` | reel_tests.rb:55-71 | a request the check accepts is held open and its raw value goes to `RequestEvent`: the connection is appended to that topic's queue when there is one, and no queue changes when there is none; any other request gets a 404 and changes no queue |
| `WebServing.WebServer.HandleEventsCorrected` | reel_tests.rb:55-71 | the same requests are held open, and each held connection is appended to the queue of the channel its value reads as, which always exists; any other request gets a 404 and changes no queue |

## Findings

| source | as written | input that shows it | evidently intended | confidence | as-written member | corrected member |
|---|---|---|---|---|---|---|
| reel_tests.rb:59-65 | the check uses `channel.to_i(10)`, but `request_event` is given the raw `channel` string as the topic | `/events?channel=02` (also `" 2"`, `"2x"`, `"+2"`, `"0d2"`) passes the check and names no queue; `@channels["02"] << connection` then raises on `nil` | register under the queue of the channel that was read, `"2"` | not executed; high (follows from `to_i` and the hash keys) | `WebServing.LeadingZeroRegistersUnqueuedTopic` (about `WebServing.Subscription`) | `WebServing.CanonicalSubscription` |

`WebServing.WebServer.HandleEvents` follows the source and hands the raw value
to `Distribution.DistributeEvents.RequestEvent`. For a value such as `"02"`,
`RequestEvent` gives `ok == false`: the connection is held and no queue gains it.
`WebServing.LeadingZeroScenario` walks through this case.
`WebServing.WebServer.HandleEventsCorrected` uses `WebServing.CanonicalSubscription` instead.

## Left out

- The Reel server, the request loop, path routing, the websocket check,
  `/channels` and the other 404 path are network I/O. They are not part of this model.
- `request.body.to_s` and `connection.detach` are socket handling. They are left out.
- Celluloid actors, `supervise_as`, `async`, `after` timers and the
  notification bus are concurrency and supervision. A publish is modelled as a
  direct call to `Distribute`. `schedule` only records the next delay in the
  source's `nextDelay` field, both in the constructor and in `PublishEvent`.
- `Distribution.DistributeEvents.RequestEvent`: on a topic with no queue the source raises `NoMethodError`. That crashes the registry actor, and its supervisor restarts it with fresh empty queues. The model returns `ok == false` and leaves the queues as they were. It does not model the crash or the restart.
- `DateTime.now` is a timestamp parameter. The JSON encoding of an event and
  of the `/increasing` list is not modelled: the event record and the list are
  the payloads.
- `CGI::parse` (splitting and percent-decoding the query string) is a library
  call. The query arrives as a map from key to values.
- `Logger` is not modelled. A rescued failure records only which clause caught
  it (`SocketError` or other).
- Trollop options, host and port are configuration and are not modelled.
- `rand(8)` is a draw parameter in 0..7.
- The text of the 404 body is not modelled.
- `RubyConversions.ToI` covers white space, sign, the `0d` prefix and single
  underscores between digits. It does not cover the zero-squeezing path of
  Ruby's parser for inputs such as `"0__1"`.

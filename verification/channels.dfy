/**
 The periodic producer of one channel. A channel source names its channel by
 the channel's topic string, counts the events it emits (the first carries
 counter 1) and waits a randomised 4 to 11 time units between two events.
 The timer, the clock and the random draw are parameters here.
 */
module Channels {
  import RubyConversions

  /** The clock reading stamped on an event (`DateTime.now.to_s`). */
  type Timestamp = string

  /** The event record a source publishes: `{channel, counter, time}`. */
  datatype Event = Event(channel: string, counter: nat, time: Timestamp)

  /** `ChannelSource.channel_topic`: the pub/sub topic of a channel is its
      `to_s`, so channel 2 publishes on, and is queued under, "2". */
  function ChannelTopic(channel: int): (topic: string)
    ensures RubyConversions.ToI(topic) == channel
  {
    RubyConversions.ToIOfToS(channel);
    RubyConversions.ToS(channel)
  }

  /** Two channels share a topic only if they are the same channel. */
  lemma ChannelTopicInjective(a: int, b: int)
    requires ChannelTopic(a) == ChannelTopic(b)
    ensures a == b
  {
  }

  /** `rand_delay`: a base of 4 plus a draw of `rand(8)`, which lies in 0..7. */
  function RandDelay(draw: int): (delay: int)
    requires 0 <= draw < 8
    ensures 4 <= delay <= 11
    ensures delay - 4 == draw
  {
    4 + draw
  }

  /** Every delay in 4..11 is the delay of exactly one draw. */
  lemma RandDelayCoversRange(delay: int)
    requires 4 <= delay <= 11
    ensures exists draw :: 0 <= draw < 8 && RandDelay(draw) == delay
  {
    assert RandDelay(delay - 4) == delay;
  }

  /** The events a source has emitted so far are numbered 1, 2, ... in order
      and all name the source's channel. */
  ghost predicate NumberedInOrder(channel: string, emitted: seq<Event>) {
    forall i :: 0 <= i < |emitted| ==> emitted[i].counter == i + 1 && emitted[i].channel == channel
  }

  /** Within one source's run, later events carry strictly larger counters. */
  lemma {:induction false} CountersIncrease(channel: string, emitted: seq<Event>, i: int, j: int)
    requires NumberedInOrder(channel, emitted)
    requires 0 <= i < j < |emitted|
    ensures emitted[i].counter < emitted[j].counter
    ensures emitted[j].counter - emitted[i].counter == j - i
  {
  }

  class ChannelSource {
    const channel: string
    var counter: nat
    /** The delay the timer was last armed with by `schedule`. */
    var nextDelay: int
    /** The events emitted since this source was started. */
    ghost var emitted: seq<Event>

    ghost predicate Valid()
      reads this
    {
      counter == |emitted| && NumberedInOrder(channel, emitted) && 4 <= nextDelay <= 11
    }

    /** `initialize`: takes the channel's topic, starts counting at 0 and
        arms the timer for the first event with `RandDelay(draw)`. */
    constructor (ch: int, draw: int)
      requires 0 <= draw < 8
      ensures Valid()
      ensures channel == ChannelTopic(ch) && counter == 0 && emitted == []
      ensures nextDelay == RandDelay(draw)
    {
      channel := ChannelTopic(ch);
      counter := 0;
      emitted := [];
      nextDelay := RandDelay(draw);
    }

    /** `publish_event`: increments the counter, then emits the event carrying
        it, and `schedule` re-arms the timer with `RandDelay(draw)`. */
    method PublishEvent(time: Timestamp, draw: int) returns (e: Event)
      requires Valid()
      requires 0 <= draw < 8
      modifies this
      ensures Valid()
      ensures counter == old(counter) + 1
      ensures e == Event(channel, counter, time)
      ensures emitted == old(emitted) + [e]
      ensures nextDelay == RandDelay(draw)
    {
      counter := counter + 1;
      e := Event(channel, counter, time);
      emitted := emitted + [e];
      nextDelay := RandDelay(draw);
    }
  }
}

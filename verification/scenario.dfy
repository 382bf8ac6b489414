/** Whole-trace consequences of the bus model, and a worked overflow
    scenario. */
module Scenario {
  import opened PubSubTypes
  import opened PubSubLite
  import opened Bus
  import opened FireThread
  import opened DataBuffer
  import opened Subsequences

  /** After any sequence of calls from an empty engine, every channel
      accounts for each of its successful publishes as fired, lost or
      queued, and every callback has been called with that channel's
      payloads in publish order. */
  lemma EveryTraceAccounts(evs: seq<Event>, n: string, s: Callback)
    requires n in Run(Empty, evs).registry
    ensures var eng := Run(Empty, evs);
            && |eng.ledgers[n].published|
               == eng.registry[n].firedDataCount + eng.registry[n].lostDataCount
                  + |eng.registry[n].publishedDataList|
            && IsSubsequence(Received(eng.log[eng.ledgers[n].since..], n, s), eng.ledgers[n].published)
  {
    var eng := Run(Empty, evs);
    Conservation(eng, n);
    Fifo(eng, n, s);
  }

  /** The first worker iteration on a 100-byte channel holding three 40-byte
      messages: the oldest is dropped (80 bytes remain, within the cap) and
      the second is delivered. */
  lemma FirstIteration(p1: Bytes, p2: Bytes, p3: Bytes, s: Callback)
    requires |p1| == 40 && |p2| == 40 && |p3| == 40
    ensures var c := ChannelInfo(1000, 100, Running, true, 0, 0, 120, [p1, p2, p3], [s]);
            && ByteTotalValid(c)
            && FireIteration(c)
               == Continue(ChannelInfo(1000, 100, Running, true, 1, 1, 40, [p3], [s]),
                           [Delivery(s, p2)])
  {
    var c := ChannelInfo(1000, 100, Running, true, 0, 0, 120, [p1, p2, p3], [s]);
    var q := c.publishedDataList;
    assert TotalSize([p3]) == 40 by { assert [p3][1..] == []; }
    assert TotalSize([p2, p3]) == 80 by { assert [p2, p3][1..] == [p3]; }
    assert TotalSize(q) == 120 by { assert q[1..] == [p2, p3]; }
    assert q[..0] == [];
    assert q[..1] == [p1];
    assert TotalSize([p1]) == 40 by { assert [p1][1..] == []; }
    assert EvictionLength(q, 120, 100, 0, 0) == Some(1);
    assert q[1..] == [p2, p3];
    var a := AdjustDataBuffer(c);
    assert a == c.(currentBufferedDataSize := 80, publishedDataList := [p2, p3], lostDataCount := 1);
    assert [p2, p3][1..] == [p3];
  }

  /** The second iteration: nothing to drop, the remaining message is
      delivered and the queue is empty. */
  lemma SecondIteration(p3: Bytes, s: Callback)
    requires |p3| == 40
    ensures var c := ChannelInfo(1000, 100, Running, true, 1, 1, 40, [p3], [s]);
            && ByteTotalValid(c)
            && FireIteration(c)
               == Continue(ChannelInfo(1000, 100, Running, true, 2, 1, 0, [], [s]),
                           [Delivery(s, p3)])
  {
    var c := ChannelInfo(1000, 100, Running, true, 1, 1, 40, [p3], [s]);
    assert TotalSize([p3]) == 40 by { assert [p3][1..] == []; }
    assert AdjustDataBuffer(c) == c;
    assert [p3][1..] == [];
  }

  /** Publishing to the only channel of a registry appends to its queue. */
  lemma PublishToOnly(n: string, c: ChannelInfo, p: Bytes)
    requires n != "" && c.fireStatus == Running && |p| > 0
    ensures PublishData(map[n := c], n, Some(p))
         == Reply(Success, map[n := c.(currentBufferedDataSize := c.currentBufferedDataSize + |p|,
                                       publishedDataList := c.publishedDataList + [p])])
  {
  }

  /** Creating channel `n` with a 100-byte cap, registering one subscriber
      and publishing three 40-byte messages queues all three: the publisher
      is never refused and nothing is evicted at publish time. */
  lemma FillChannel(n: string, p1: Bytes, p2: Bytes, p3: Bytes, s: Callback)
    requires n != ""
    requires |p1| == 40 && |p2| == 40 && |p3| == 40
    ensures var r0 := CreateChannel(map[], n, 1000, 100).registry;
            var r1 := RegisterSubscriber(r0, n, s).registry;
            var r2 := PublishData(r1, n, Some(p1)).registry;
            var r3 := PublishData(r2, n, Some(p2)).registry;
            var r4 := PublishData(r3, n, Some(p3));
            && r4.error == Success
            && r4.registry == map[n := ChannelInfo(1000, 100, Running, true, 0, 0, 120, [p1, p2, p3], [s])]
  {
    var c0 := ChannelInfo(1000, 100, Running, true, 0, 0, 0, [], []);
    assert CreateChannel(map[], n, 1000, 100).registry == map[n := c0];
    var c1 := c0.(subscriberCallbackList := [s]);
    assert RegisterSubscriber(map[n := c0], n, s).registry == map[n := c1];
    PublishToOnly(n, c1, p1);
    var c2 := c1.(currentBufferedDataSize := 40, publishedDataList := [p1]);
    assert [] + [p1] == [p1];
    PublishToOnly(n, c2, p2);
    var c3 := c2.(currentBufferedDataSize := 80, publishedDataList := [p1, p2]);
    assert [p1] + [p2] == [p1, p2];
    PublishToOnly(n, c3, p3);
    assert [p1, p2] + [p3] == [p1, p2, p3];
  }

  /** The worked example: after `FillChannel`, the worker's first iteration
      drops the oldest message and delivers the second, the next delivers
      the third; one message lost, two fired, nothing left buffered, and the
      subscriber saw the surviving payloads in publish order. */
  lemma OverflowScenario(p1: Bytes, p2: Bytes, p3: Bytes, s: Callback)
    requires |p1| == 40 && |p2| == 40 && |p3| == 40
    ensures var c := ChannelInfo(1000, 100, Running, true, 0, 0, 120, [p1, p2, p3], [s]);
            && ByteTotalValid(c)
            && FireIteration(c).Continue?
            && FireIteration(c).deliveries == [Delivery(s, p2)]
            && var c' := FireIteration(c).channel;
            && FireIteration(c').Continue?
            && FireIteration(c').deliveries == [Delivery(s, p3)]
            && FireIteration(c').channel
               == ChannelInfo(1000, 100, Running, true, 2, 1, 0, [], [s])
  {
    FirstIteration(p1, p2, p3, s);
    SecondIteration(p3, s);
  }
}

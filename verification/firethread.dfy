/** One iteration of a channel's delivery worker (`FireThread_`). The
    iteration's two critical sections and the callback calls between them are
    taken as one atomic step: while the callbacks run, other operations can
    change the configuration or status, append to the back of the queue, or
    edit the subscriber list, whose snapshot has already been taken; none of
    them removes or replaces the front, so the front the worker reads and
    pops is the one it evicted down to. */
module FireThread {
  import opened PubSubTypes
  import opened DataBuffer

  /** One callback invocation: `subscriber` was called with `payload`. */
  datatype Delivery = Delivery(subscriber: Callback, payload: Bytes)

  /** The outcome of one loop iteration: the loop ends, or it goes round
      again with the channel as it left it and the callbacks it made. */
  datatype Iteration =
    | Terminate
    | Continue(channel: ChannelInfo, deliveries: seq<Delivery>)

  /** The payloads `s` was called with, in call order. */
  function CallsTo(ds: seq<Delivery>, s: Callback): seq<Bytes>
  {
    if ds == [] then []
    else (if ds[0].subscriber == s then [ds[0].payload] else []) + CallsTo(ds[1..], s)
  }

  /** Calls that go to the subscribers of a list, one each and in list
      order, with payload `p`: a callback outside the list is never called,
      and on a list without duplicates each subscriber is called once. */
  lemma {:induction false} OneCallEach(ds: seq<Delivery>, subscribers: seq<Callback>, p: Bytes)
    requires |ds| == |subscribers|
    requires forall i :: 0 <= i < |ds| ==> ds[i] == Delivery(subscribers[i], p)
    ensures forall s :: s !in subscribers ==> CallsTo(ds, s) == []
    ensures NoDuplicates(subscribers) ==>
              forall s :: s in subscribers ==> CallsTo(ds, s) == [p]
    decreases |ds|
  {
    if ds != [] {
      var t := subscribers[1..];
      assert forall i :: 0 <= i < |t| ==> t[i] == subscribers[i + 1];
      OneCallEach(ds[1..], t, p);
      assert forall s :: s in t ==> s in subscribers;
      assert subscribers == [subscribers[0]] + t;
    }
  }

  /** The calls made for one message: each subscriber of the snapshot in
      list order, each with the same payload. On a list without duplicates
      every subscriber is called exactly once and nobody else is called. */
  function Deliveries(subscribers: seq<Callback>, payload: Bytes): (ds: seq<Delivery>)
    ensures |ds| == |subscribers|
    ensures forall i :: 0 <= i < |ds| ==> ds[i].subscriber == subscribers[i] && ds[i].payload == payload
    ensures forall s :: s !in subscribers ==> CallsTo(ds, s) == []
    ensures NoDuplicates(subscribers) ==>
              forall s :: s in subscribers ==> CallsTo(ds, s) == [payload]
  {
    var ds := seq(|subscribers|, i requires 0 <= i < |subscribers| => Delivery(subscribers[i], payload));
    OneCallEach(ds, subscribers, payload);
    ds
  }

  /** Delivers the front message to the subscriber snapshot, pops it,
      charges its bytes and counts it as fired. */
  function FireFront(a: ChannelInfo): (r: Iteration)
    requires ByteTotalValid(a)
    requires |a.publishedDataList| > 0
    ensures r.Continue? && ByteTotalValid(r.channel)
  {
    var front := a.publishedDataList[0];
    var q := a.publishedDataList;
    assert q == [front] + q[1..];
    TotalSizeAppend([front], q[1..]);
    assert TotalSize([front]) == |front| + TotalSize([]);
    Continue(a.(currentBufferedDataSize := a.currentBufferedDataSize - |front|,
                publishedDataList := q[1..],
                firedDataCount := a.firedDataCount + 1),
             Deliveries(a.subscriberCallbackList, front))
  }

  /** Number of messages an iteration counted as lost. */
  function LostIn(before: ChannelInfo, after: ChannelInfo): int
  {
    after.lostDataCount - before.lostDataCount
  }

  /** Number of messages an iteration delivered. */
  function FiredIn(before: ChannelInfo, after: ChannelInfo): int
  {
    after.firedDataCount - before.firedDataCount
  }

  /** How an iteration that goes round again leaves the channel: some `k`
      oldest payloads were evicted as lost and then at most one more was
      fired; the queue is what remains, in order, its byte total stays
      exact, and configuration, status and subscribers are untouched. */
  predicate Settles(c: ChannelInfo, c': ChannelInfo)
  {
    var k := LostIn(c, c');
    var f := FiredIn(c, c');
    && 0 <= k && 0 <= f <= 1
    && k + f <= |c.publishedDataList|
    && c'.publishedDataList == c.publishedDataList[k + f..]
    && ByteTotalValid(c')
    && c' == c.(publishedDataList := c'.publishedDataList,
                currentBufferedDataSize := c'.currentBufferedDataSize,
                lostDataCount := c'.lostDataCount,
                firedDataCount := c'.firedDataCount)
  }

  /** The callbacks an iteration made: the fired message, which is the
      oldest that survived eviction, went to each subscriber in list order;
      nothing was called when no message was fired. */
  predicate DeliveredFront(c: ChannelInfo, c': ChannelInfo, ds: seq<Delivery>)
    requires Settles(c, c')
  {
    if FiredIn(c, c') == 1
    then ds == Deliveries(c.subscriberCallbackList, c.publishedDataList[LostIn(c, c')])
    else ds == []
  }

  /** When eviction leaves something queued, firing its front settles the
      channel: the evicted payloads are lost, the next one is fired and
      delivered to the snapshot, and the byte total stays within the cap. */
  lemma FireAfterEviction(c: ChannelInfo, a: ChannelInfo)
    requires ByteTotalValid(c) && a == AdjustDataBuffer(c) && a.publishedDataList != []
    ensures var r := FireFront(a);
            && Settles(c, r.channel) && DeliveredFront(c, r.channel, r.deliveries)
            && FiredIn(c, r.channel) == 1
            && LostIn(c, r.channel) == Evicted(c, a)
            && r.channel.currentBufferedDataSize <= c.maxBufferedDataSize
  {
    var k := Evicted(c, a);
    assert a.publishedDataList[1..] == c.publishedDataList[k + 1..];
    assert a.publishedDataList[0] == c.publishedDataList[k];
  }

  /** One iteration of the worker loop, with the guard the loop lacks: when
      eviction has emptied the queue the iteration delivers nothing. */
  function FireIteration(c: ChannelInfo): (r: Iteration)
    requires ByteTotalValid(c)
    ensures r.Terminate? <==> c.fireStatus == Exit
    ensures c.fireStatus != Exit && c.publishedDataList == [] ==> r == Continue(c, [])
    ensures r.Continue? ==> Settles(c, r.channel) && DeliveredFront(c, r.channel, r.deliveries)
    ensures r.Continue? && c.publishedDataList != [] ==>
              r.channel.currentBufferedDataSize <= c.maxBufferedDataSize
    ensures r.Continue? && c.publishedDataList != [] ==>
              LostIn(c, r.channel) == Evicted(c, AdjustDataBuffer(c))
    ensures r.Continue? && c.publishedDataList != [] ==>
              (FiredIn(c, r.channel) == 1
               <==> |c.publishedDataList[|c.publishedDataList| - 1]| <= c.maxBufferedDataSize)
  {
    if c.fireStatus == Exit then Terminate
    else if c.publishedDataList == [] then Continue(c, [])
    else
      var a := AdjustDataBuffer(c);
      EvictionEmptiesIff(c);
      if a.publishedDataList == [] then Continue(a, [])
      else
        FireAfterEviction(c, a);
        FireFront(a)
  }

  /** The iteration as the loop is written: a result, or a read of the front
      of an empty queue (undefined behaviour). */
  datatype AsWritten = Defined(iteration: Iteration) | FrontOfEmptyList

  /** One iteration exactly as the loop runs it: after eviction it reads
      the front of the queue without checking that one is left. */
  function FireIterationAsWritten(c: ChannelInfo): (r: AsWritten)
    requires ByteTotalValid(c)
    ensures r == FrontOfEmptyList <==>
              && c.fireStatus != Exit
              && c.publishedDataList != []
              && |c.publishedDataList[|c.publishedDataList| - 1]| > c.maxBufferedDataSize
    ensures r.Defined? ==> r.iteration == FireIteration(c)
  {
    if c.fireStatus == Exit then Defined(Terminate)
    else if c.publishedDataList == [] then Defined(Continue(c, []))
    else
      var a := AdjustDataBuffer(c);
      EvictionEmptiesIff(c);
      if a.publishedDataList == [] then FrontOfEmptyList
      else Defined(FireFront(a))
  }

  /** A running channel capped at 3 bytes whose only queued message has 5
      bytes: eviction drops it, and the loop then reads the front of the
      empty queue. The guarded iteration instead counts it lost and idles. */
  lemma OversizedMessageEmptiesQueue()
    ensures var c := ChannelInfo(1000, 3, Running, true, 0, 0, 5, [[1, 2, 3, 4, 5]], [Callback(7)]);
            && ByteTotalValid(c)
            && FireIterationAsWritten(c) == FrontOfEmptyList
            && FireIteration(c) == Continue(ChannelInfo(1000, 3, Running, true, 0, 1, 0, [], [Callback(7)]), [])
  {
    var c := ChannelInfo(1000, 3, Running, true, 0, 0, 5, [[1, 2, 3, 4, 5]], [Callback(7)]);
    var q := c.publishedDataList;
    assert TotalSize(q) == 5 by { assert q[1..] == []; }
    assert q[..0] == [] && q[..1] == q;
    assert EvictionLength(q, 5, 3, 0, 0) == Some(1);
    assert q[1..] == [];
    assert AdjustDataBuffer(c) == c.(currentBufferedDataSize := 0, publishedDataList := [], lostDataCount := 1);
  }
}

/** The channel's publish queue and its drop-oldest eviction policy
    (`AdjustDataBuffer_`). */
module DataBuffer {
  import opened PubSubTypes

  lemma TotalSizeSnoc(q: seq<Bytes>, k: nat)
    requires k < |q|
    ensures TotalSize(q[..k + 1]) == TotalSize(q[..k]) + |q[k]|
  {
    assert q[..k + 1] == q[..k] + [q[k]];
    TotalSizeAppend(q[..k], [q[k]]);
    assert TotalSize([q[k]]) == |q[k]| + TotalSize([]);
  }

  lemma AllSplits(q: seq<Bytes>)
    ensures forall j :: 0 <= j <= |q| ==> TotalSize(q) == TotalSize(q[..j]) + TotalSize(q[j..])
  {
    forall j | 0 <= j <= |q|
      ensures TotalSize(q) == TotalSize(q[..j]) + TotalSize(q[j..])
    {
      TotalSizeSplit(q, j);
    }
  }

  /** The scan of the eviction loop. Having counted the first `k` payloads
      (`deleted` bytes) as removed, it counts one more and stops at the first
      prefix length whose removal brings `current` down to at most `max`;
      `None` when even removing everything is not enough. */
  function EvictionLength(q: seq<Bytes>, current: nat, max: nat, k: nat, deleted: nat): (r: Option<nat>)
    requires k <= |q|
    requires deleted == TotalSize(q[..k])
    ensures r.Some? ==> k < r.value <= |q| && current - TotalSize(q[..r.value]) <= max
    ensures r.Some? ==> forall j :: k < j < r.value ==> current - TotalSize(q[..j]) > max
    ensures r.None? ==> forall j :: k < j <= |q| ==> current - TotalSize(q[..j]) > max
    decreases |q| - k
  {
    if k == |q| then None
    else
      TotalSizeSnoc(q, k);
      var d := deleted + |q[k]|;
      if current - d <= max then Some(k + 1)
      else EvictionLength(q, current, max, k + 1, d)
  }

  /** Number of queue entries an adjustment took off the front. */
  function Evicted(before: ChannelInfo, after: ChannelInfo): int
  {
    |before.publishedDataList| - |after.publishedDataList|
  }

  /** Drop-oldest eviction. When the byte total exceeds the channel's maximum,
      removes the shortest prefix of the queue whose removal restores the
      bound, charges the removed bytes and counts every removed payload as
      lost; otherwise leaves the channel as it is. */
  function AdjustDataBuffer(c: ChannelInfo): (r: ChannelInfo)
    requires ByteTotalValid(c)
    ensures c.currentBufferedDataSize <= c.maxBufferedDataSize ==> r == c
    ensures 0 <= Evicted(c, r) <= |c.publishedDataList|
    ensures r.publishedDataList == c.publishedDataList[Evicted(c, r)..]
    ensures r.lostDataCount == c.lostDataCount + Evicted(c, r)
    ensures r.currentBufferedDataSize
         == c.currentBufferedDataSize - TotalSize(c.publishedDataList[..Evicted(c, r)])
    ensures ByteTotalValid(r)
    ensures r.currentBufferedDataSize <= r.maxBufferedDataSize
    ensures forall j :: 0 <= j < Evicted(c, r) ==>
              TotalSize(c.publishedDataList[j..]) > c.maxBufferedDataSize
    ensures r == c.(publishedDataList := r.publishedDataList,
                    currentBufferedDataSize := r.currentBufferedDataSize,
                    lostDataCount := r.lostDataCount)
  {
    var q := c.publishedDataList;
    AllSplits(q);
    assert q[..|q|] == q;
    if c.currentBufferedDataSize <= c.maxBufferedDataSize then c
    else
      match EvictionLength(q, c.currentBufferedDataSize, c.maxBufferedDataSize, 0, 0)
      case None => assert false; c
      case Some(k) =>
        c.(currentBufferedDataSize := c.currentBufferedDataSize - TotalSize(q[..k]),
           publishedDataList := q[k..],
           lostDataCount := c.lostDataCount + k)
  }

  lemma SuffixHoldsLast(q: seq<Bytes>, k: nat)
    requires k < |q|
    ensures TotalSize(q[k..]) >= |q[|q| - 1]|
  {
    var n := |q| - 1;
    assert q[k..] == q[k..n] + [q[n]];
    TotalSizeAppend(q[k..n], [q[n]]);
    assert TotalSize([q[n]]) == |q[n]| + TotalSize([]);
  }

  /** Eviction empties a non-empty queue exactly when its newest payload
      alone is larger than the channel's maximum. */
  lemma {:induction false} EvictionEmptiesIff(c: ChannelInfo)
    requires ByteTotalValid(c)
    requires |c.publishedDataList| > 0
    ensures AdjustDataBuffer(c).publishedDataList == []
        <==> |c.publishedDataList[|c.publishedDataList| - 1]| > c.maxBufferedDataSize
  {
    var q := c.publishedDataList;
    var n := |q| - 1;
    var r := AdjustDataBuffer(c);
    var k := Evicted(c, r);
    if r.publishedDataList == [] {
      assert k == |q|;
      assert q[n..] == [q[n]];
      assert TotalSize([q[n]]) == |q[n]| + TotalSize([]);
      assert TotalSize(q[n..]) > c.maxBufferedDataSize;
    } else {
      assert k < |q|;
      SuffixHoldsLast(q, k);
    }
  }
}

/** The data model of the PubSubLite channel engine: default configuration,
    result codes, the fire status of a channel's worker, and the per-channel
    record `ChannelInfo` together with its representation invariant. */
module PubSubTypes {

  newtype byte = x: int | 0 <= x < 0x100

  /** A published payload: an owned copy of the publisher's bytes. */
  type Bytes = seq<byte>

  /** A subscriber callback. Only its identity (the function's address)
      matters to the engine; invoking it is modelled by the worker's
      delivery log. */
  datatype Callback = Callback(address: nat)

  datatype Option<T> = None | Some(value: T)

  /** Idle and polling period of a channel's worker, in milliseconds. */
  const DefaultFlushTime: nat := 1000

  /** Soft cap on the bytes queued in a channel (10 MiB). */
  const DefaultMaxBufferedDataSize: nat := 10485760

  /** Result codes returned by every public operation. */
  datatype Error =
    | Success
    | Unsuccess
    | ExistChannel
    | ExistSubscriber
    | NotExistChannel
    | NotExistSubscriber
    | NotEnoughBufferSize
    | BeStoppedFire

  /** The 32-bit value each result code carries: success is zero and the
      failures count up from the high bit. */
  function Code(e: Error): (v: nat)
    ensures v < 0x1_0000_0000
    ensures v == 0 <==> e == Success
    ensures e != Success ==> 0x8000_0000 <= v < 0x8000_0007
  {
    match e
    case Success => 0
    case Unsuccess => 0x8000_0000
    case ExistChannel => 0x8000_0001
    case ExistSubscriber => 0x8000_0002
    case NotExistChannel => 0x8000_0003
    case NotExistSubscriber => 0x8000_0004
    case NotEnoughBufferSize => 0x8000_0005
    case BeStoppedFire => 0x8000_0006
  }

  /** No two result codes share a value, so a failure is never read as
      success nor as another failure. */
  lemma CodeInjective(a: Error, b: Error)
    ensures Code(a) == Code(b) <==> a == b
  {
  }

  /** The state of a channel's worker: exactly one of the three. */
  datatype FireStatus = Running | Stop | Exit

  /** One channel. `publishedDataList` is the queue, oldest first;
      `subscriberCallbackList` is kept in registration order. The worker
      thread handle is reduced to whether one has been started. */
  datatype ChannelInfo = ChannelInfo(
    flushTime: nat,
    maxBufferedDataSize: nat,
    fireStatus: FireStatus,
    hasFireThread: bool,
    firedDataCount: nat,
    lostDataCount: nat,
    currentBufferedDataSize: nat,
    publishedDataList: seq<Bytes>,
    subscriberCallbackList: seq<Callback>)

  /** Total number of bytes held by a queue of payloads. */
  function TotalSize(q: seq<Bytes>): nat
  {
    if q == [] then 0 else |q[0]| + TotalSize(q[1..])
  }

  lemma {:induction false} TotalSizeAppend(a: seq<Bytes>, b: seq<Bytes>)
    ensures TotalSize(a + b) == TotalSize(a) + TotalSize(b)
    decreases |a|
  {
    if a == [] {
      assert a + b == b;
    } else {
      assert (a + b)[1..] == a[1..] + b;
      TotalSizeAppend(a[1..], b);
    }
  }

  /** Splitting a queue at any point splits its byte total. */
  lemma TotalSizeSplit(q: seq<Bytes>, k: nat)
    requires k <= |q|
    ensures TotalSize(q) == TotalSize(q[..k]) + TotalSize(q[k..])
  {
    assert q == q[..k] + q[k..];
    TotalSizeAppend(q[..k], q[k..]);
  }

  /** The running byte total equals the sum of the queued payload sizes. */
  predicate ByteTotalValid(c: ChannelInfo)
  {
    c.currentBufferedDataSize == TotalSize(c.publishedDataList)
  }

  predicate NoDuplicates<T(==)>(s: seq<T>)
  {
    forall i, j :: 0 <= i < j < |s| ==> s[i] != s[j]
  }

  /** The invariant every channel keeps between operations. */
  predicate WellFormed(c: ChannelInfo)
  {
    ByteTotalValid(c) && NoDuplicates(c.subscriberCallbackList)
  }

  /** A default-constructed channel record. */
  function DefaultChannelInfo(): (c: ChannelInfo)
    ensures c.fireStatus == Running && !c.hasFireThread
    ensures c.firedDataCount == 0 && c.lostDataCount == 0
    ensures c.publishedDataList == [] && c.subscriberCallbackList == []
    ensures WellFormed(c)
  {
    ChannelInfo(0, 0, Running, false, 0, 0, 0, [], [])
  }
}

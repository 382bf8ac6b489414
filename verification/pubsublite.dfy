/** The public API of the channel engine over an explicit registry. Every
    operation is one atomic step: it decides its result code first and only
    on success returns a changed registry. */
module PubSubLite {
  import opened PubSubTypes
  import SubscriberList

  /** The process-wide map from channel name to channel record. */
  type Registry = map<string, ChannelInfo>

  /** What an operation returns: its result code and the registry after it. */
  datatype Reply = Reply(error: Error, registry: Registry)

  /** What a counter read returns. */
  datatype CountReply = CountReply(error: Error, count: nat)

  predicate RegistryWellFormed(reg: Registry)
  {
    forall n :: n in reg ==> WellFormed(reg[n])
  }

  /** A channel the API can still act on: present and not told to exit. */
  predicate Live(reg: Registry, name: string)
  {
    name in reg && reg[name].fireStatus != Exit
  }

  /** `after` differs from `before` at most in the record of `name`. */
  predicate OthersUnchanged(before: Registry, after: Registry, name: string)
  {
    && after.Keys == before.Keys
    && forall n :: n in before && n != name ==> after[n] == before[n]
  }

  /** Exact-match lookup of a channel by name. */
  function SearchChannelInfo(reg: Registry, name: string): Option<ChannelInfo>
  {
    if name in reg then Some(reg[name]) else None
  }

  /** A channel as `CreateChannel` inserts it. */
  predicate IsFresh(c: ChannelInfo, flushTime: nat, maxBufferedDataSize: nat)
  {
    && c.flushTime == flushTime
    && c.maxBufferedDataSize == maxBufferedDataSize
    && c.fireStatus == Running
    && c.hasFireThread
    && c.firedDataCount == 0 && c.lostDataCount == 0
    && c.currentBufferedDataSize == 0
    && c.publishedDataList == [] && c.subscriberCallbackList == []
  }

  function CreateChannel(reg: Registry, name: string, flushTime: nat, maxBufferedDataSize: nat): (r: Reply)
    ensures name == "" ==> r.error == Unsuccess
    ensures name != "" && name in reg ==> r.error == ExistChannel
    ensures r.error == Success <==> name != "" && name !in reg
    ensures r.error != Success ==> r.registry == reg
    ensures r.error == Success ==>
              && r.registry.Keys == reg.Keys + {name}
              && (forall n :: n in reg ==> r.registry[n] == reg[n])
              && IsFresh(r.registry[name], flushTime, maxBufferedDataSize)
    ensures RegistryWellFormed(reg) ==> RegistryWellFormed(r.registry)
  {
    if name == "" then Reply(Unsuccess, reg)
    else if SearchChannelInfo(reg, name).Some? then Reply(ExistChannel, reg)
    else
      var c := DefaultChannelInfo().(flushTime := flushTime, maxBufferedDataSize := maxBufferedDataSize);
      Reply(Success, reg[name := c.(hasFireThread := true)])
  }

  /** `CreateChannel` with the flush time and maximum buffer left out. */
  function CreateChannelWithDefaults(reg: Registry, name: string): (r: Reply)
    ensures r.error == Success <==> name != "" && name !in reg
    ensures r.error != Success ==> r.registry == reg
    ensures r.error == Success ==>
              && r.registry.Keys == reg.Keys + {name}
              && IsFresh(r.registry[name], 1000, 10485760)
  {
    CreateChannel(reg, name, DefaultFlushTime, DefaultMaxBufferedDataSize)
  }

  /** Replaces the flush time and maximum buffer size of an existing channel.
      Nothing else changes and the queue is not trimmed. */
  function UpdateChannel(reg: Registry, name: string, flushTime: nat, maxBufferedDataSize: nat): (r: Reply)
    ensures r.error == Unsuccess <==> name == ""
    ensures r.error == NotExistChannel <==> name != "" && name !in reg
    ensures r.error == Success <==> name != "" && name in reg
    ensures r.error != Success ==> r.registry == reg
    ensures r.error == Success ==>
              && OthersUnchanged(reg, r.registry, name)
              && r.registry[name] == reg[name].(flushTime := flushTime,
                                                maxBufferedDataSize := maxBufferedDataSize)
    ensures RegistryWellFormed(reg) ==> RegistryWellFormed(r.registry)
  {
    if name == "" then Reply(Unsuccess, reg)
    else match SearchChannelInfo(reg, name)
      case None => Reply(NotExistChannel, reg)
      case Some(c) =>
        Reply(Success, reg[name := c.(flushTime := flushTime, maxBufferedDataSize := maxBufferedDataSize)])
  }

  /** Stops the channel's worker and erases the channel, as one step. */
  function DeleteChannel(reg: Registry, name: string): (r: Reply)
    ensures r.error == Unsuccess <==> name == ""
    ensures r.error == NotExistChannel <==> name != "" && name !in reg
    ensures r.error == Success <==> name != "" && name in reg
    ensures r.error != Success ==> r.registry == reg
    ensures r.error == Success ==>
              && r.registry.Keys == reg.Keys - {name}
              && forall n :: n in r.registry ==> r.registry[n] == reg[n]
    ensures RegistryWellFormed(reg) ==> RegistryWellFormed(r.registry)
  {
    if name == "" then Reply(Unsuccess, reg)
    else if SearchChannelInfo(reg, name).None? then Reply(NotExistChannel, reg)
    else Reply(Success, map n | n in reg && n != name :: reg[n])
  }

  /** Sets a live channel to `status`; the common body of PauseFire and
      ResumeFire. */
  function SetFireStatus(reg: Registry, name: string, status: FireStatus): (r: Reply)
    ensures r.error == Unsuccess <==> name == ""
    ensures r.error == NotExistChannel <==> name != "" && !Live(reg, name)
    ensures r.error == Success <==> name != "" && Live(reg, name)
    ensures r.error != Success ==> r.registry == reg
    ensures r.error == Success ==>
              && OthersUnchanged(reg, r.registry, name)
              && r.registry[name] == reg[name].(fireStatus := status)
    ensures RegistryWellFormed(reg) ==> RegistryWellFormed(r.registry)
  {
    if name == "" then Reply(Unsuccess, reg)
    else match SearchChannelInfo(reg, name)
      case None => Reply(NotExistChannel, reg)
      case Some(c) =>
        if c.fireStatus == Exit then Reply(NotExistChannel, reg)
        else Reply(Success, reg[name := c.(fireStatus := status)])
  }

  /** Suspends publishing to a live channel. */
  function PauseFire(reg: Registry, name: string): (r: Reply)
    ensures r.error == Unsuccess <==> name == ""
    ensures r.error == NotExistChannel <==> name != "" && !Live(reg, name)
    ensures r.error == Success <==> name != "" && Live(reg, name)
    ensures r.error != Success ==> r.registry == reg
    ensures r.error == Success ==>
              && OthersUnchanged(reg, r.registry, name)
              && r.registry[name] == reg[name].(fireStatus := Stop)
  {
    SetFireStatus(reg, name, Stop)
  }

  /** Lets a live channel accept publications again. */
  function ResumeFire(reg: Registry, name: string): (r: Reply)
    ensures r.error == Unsuccess <==> name == ""
    ensures r.error == NotExistChannel <==> name != "" && !Live(reg, name)
    ensures r.error == Success <==> name != "" && Live(reg, name)
    ensures r.error != Success ==> r.registry == reg
    ensures r.error == Success ==>
              && OthersUnchanged(reg, r.registry, name)
              && r.registry[name] == reg[name].(fireStatus := Running)
  {
    SetFireStatus(reg, name, Running)
  }

  /** Publishes a payload. `data` is `None` for a null pointer and otherwise
      holds exactly the `dataSize` bytes the caller passed. */
  function PublishData(reg: Registry, name: string, data: Option<Bytes>): (r: Reply)
    ensures r.error == Unsuccess <==> name == "" || data.None? || |data.value| == 0
    ensures r.error == NotExistChannel <==>
              name != "" && data.Some? && |data.value| > 0 && !Live(reg, name)
    ensures r.error == BeStoppedFire <==>
              name != "" && data.Some? && |data.value| > 0 && Live(reg, name)
              && reg[name].fireStatus == Stop
    ensures r.error == Success <==>
              name != "" && data.Some? && |data.value| > 0 && name in reg
              && reg[name].fireStatus == Running
    ensures r.error != Success ==> r.registry == reg
    ensures r.error == Success ==>
              && OthersUnchanged(reg, r.registry, name)
              && r.registry[name].publishedDataList == reg[name].publishedDataList + [data.value]
              && r.registry[name].currentBufferedDataSize
                 == reg[name].currentBufferedDataSize + |data.value|
              && r.registry[name] == reg[name].(publishedDataList := r.registry[name].publishedDataList,
                                                currentBufferedDataSize := r.registry[name].currentBufferedDataSize)
    ensures RegistryWellFormed(reg) ==> RegistryWellFormed(r.registry)
  {
    if name == "" || data.None? || |data.value| == 0 then Reply(Unsuccess, reg)
    else match SearchChannelInfo(reg, name)
      case None => Reply(NotExistChannel, reg)
      case Some(c) =>
        if c.fireStatus == Exit then Reply(NotExistChannel, reg)
        else if c.fireStatus == Stop then Reply(BeStoppedFire, reg)
        else
          var q := c.publishedDataList + [data.value];
          TotalSizeAppend(c.publishedDataList, [data.value]);
          assert TotalSize([data.value]) == |data.value| + TotalSize([]);
          Reply(Success, reg[name := c.(currentBufferedDataSize := c.currentBufferedDataSize + |data.value|,
                                        publishedDataList := q)])
  }

  function RegisterSubscriber(reg: Registry, name: string, cb: Callback): (r: Reply)
    ensures r.error == Unsuccess <==> name == ""
    ensures r.error == NotExistChannel <==> name != "" && !Live(reg, name)
    ensures r.error == ExistSubscriber <==>
              name != "" && Live(reg, name) && cb in reg[name].subscriberCallbackList
    ensures r.error == Success <==>
              name != "" && Live(reg, name) && cb !in reg[name].subscriberCallbackList
    ensures r.error != Success ==> r.registry == reg
    ensures r.error == Success ==>
              && OthersUnchanged(reg, r.registry, name)
              && r.registry[name].subscriberCallbackList == reg[name].subscriberCallbackList + [cb]
              && r.registry[name] == reg[name].(subscriberCallbackList := r.registry[name].subscriberCallbackList)
    ensures RegistryWellFormed(reg) ==> RegistryWellFormed(r.registry)
  {
    if name == "" then Reply(Unsuccess, reg)
    else match SearchChannelInfo(reg, name)
      case None => Reply(NotExistChannel, reg)
      case Some(c) =>
        if c.fireStatus == Exit then Reply(NotExistChannel, reg)
        else
          var list := c.subscriberCallbackList;
          if SubscriberList.SearchSubscriberCallback(list, cb) != |list| then Reply(ExistSubscriber, reg)
          else Reply(Success, reg[name := c.(subscriberCallbackList := SubscriberList.Append(list, cb))])
  }

  function UnregisterSubscriber(reg: Registry, name: string, cb: Callback): (r: Reply)
    ensures r.error == Unsuccess <==> name == ""
    ensures r.error == NotExistChannel <==> name != "" && !Live(reg, name)
    ensures r.error == NotExistSubscriber <==>
              name != "" && Live(reg, name) && cb !in reg[name].subscriberCallbackList
    ensures r.error == Success <==>
              name != "" && Live(reg, name) && cb in reg[name].subscriberCallbackList
    ensures r.error != Success ==> r.registry == reg
    ensures r.error == Success ==>
              && OthersUnchanged(reg, r.registry, name)
              && multiset(r.registry[name].subscriberCallbackList) + multiset{cb}
                 == multiset(reg[name].subscriberCallbackList)
              && (WellFormed(reg[name]) ==> cb !in r.registry[name].subscriberCallbackList)
              && SubscriberList.ErasedFirst(reg[name].subscriberCallbackList, cb,
                                            r.registry[name].subscriberCallbackList)
              && r.registry[name] == reg[name].(subscriberCallbackList := r.registry[name].subscriberCallbackList)
    ensures RegistryWellFormed(reg) ==> RegistryWellFormed(r.registry)
  {
    if name == "" then Reply(Unsuccess, reg)
    else match SearchChannelInfo(reg, name)
      case None => Reply(NotExistChannel, reg)
      case Some(c) =>
        if c.fireStatus == Exit then Reply(NotExistChannel, reg)
        else
          var list := c.subscriberCallbackList;
          if SubscriberList.SearchSubscriberCallback(list, cb) == |list| then Reply(NotExistSubscriber, reg)
          else Reply(Success, reg[name := c.(subscriberCallbackList := SubscriberList.Erase(list, cb))])
  }

  /** Registering a callback and then unregistering it leaves the registry
      as it was. */
  lemma RegisterThenUnregister(reg: Registry, name: string, cb: Callback)
    requires RegisterSubscriber(reg, name, cb).error == Success
    ensures UnregisterSubscriber(RegisterSubscriber(reg, name, cb).registry, name, cb)
         == Reply(Success, reg)
  {
    var c := reg[name];
    SubscriberList.EraseUndoesAppend(c.subscriberCallbackList, cb);
    var mid := RegisterSubscriber(reg, name, cb).registry;
    assert mid[name].subscriberCallbackList == SubscriberList.Append(c.subscriberCallbackList, cb);
    assert mid[name := c] == reg;
  }

  /** Reads the fired-message counter of a live channel. */
  function GetFiredDataCount(reg: Registry, name: string): (r: CountReply)
    ensures r.error == Unsuccess <==> name == ""
    ensures r.error == NotExistChannel <==> name != "" && !Live(reg, name)
    ensures r.error == Success <==> name != "" && Live(reg, name)
    ensures r.error == Success ==> r.count == reg[name].firedDataCount
    ensures r.error != Success ==> r.count == 0
  {
    if name == "" then CountReply(Unsuccess, 0)
    else if !Live(reg, name) then CountReply(NotExistChannel, 0)
    else CountReply(Success, reg[name].firedDataCount)
  }

  /** Reads the lost-message counter of a live channel. */
  function GetLostDataCount(reg: Registry, name: string): (r: CountReply)
    ensures r.error == Unsuccess <==> name == ""
    ensures r.error == NotExistChannel <==> name != "" && !Live(reg, name)
    ensures r.error == Success <==> name != "" && Live(reg, name)
    ensures r.error == Success ==> r.count == reg[name].lostDataCount
    ensures r.error != Success ==> r.count == 0
  {
    if name == "" then CountReply(Unsuccess, 0)
    else if !Live(reg, name) then CountReply(NotExistChannel, 0)
    else CountReply(Success, reg[name].lostDataCount)
  }
}

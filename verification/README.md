# PubSubLite channel engine in Dafny

A model of the channel engine of PubSubLite, a small in-process
publish/subscribe library. The engine keeps a process-wide registry from
channel name to a channel record. Callers create, update and delete
channels. They pause and resume publishing, publish byte payloads, and
register or unregister subscriber callbacks. Each channel has a worker
thread. The worker trims the channel's queue back under its byte cap by
dropping the oldest payloads, which are counted as lost. It then hands the
oldest surviving payload to every subscriber and counts it as fired.

The model is functional:

- the registry is a `map<string, ChannelInfo>`;
- every API call is a pure function returning a result code and the new
  registry;
- one iteration of the worker loop is a pure function from the channel
  record to the record it leaves behind, plus the callback calls it made.

On top of that, the `Bus` module runs any sequence of API calls and worker
iterations as an `Engine` state. It keeps two extra records:

- a per-channel ledger of every successful publish and what became of it
  (fired or lost), together with the point in the log where the channel was
  created;
- a log of every callback call: channel, callback and payload.

Over these it proves that nothing published is ever unaccounted for. It
also proves that, since a channel was created, every callback was called
with that channel's payloads in publish order, never with a payload that
was lost.

Modules, in dependency order:

- `types.dfy`, module `PubSubTypes`: constants, result codes, fire status,
  the channel record and its invariant (the byte total matches the queue,
  and no callback is registered twice).
- `subscribers.dfy`, module `SubscriberList`: the linear search by callback
  identity, append and erase.
- `databuffer.dfy`, module `DataBuffer`: the drop-oldest eviction.
- `pubsublite.dfy`, module `PubSubLite`: the public API over the registry.
- `firethread.dfy`, module `FireThread`: one worker iteration. It comes both
  guarded and as written (see Findings).
- `subsequence.dfy`, module `Subsequences`: order-keeping subsequences,
  the form of every ordering claim.
- `bus.dfy`, module `Bus`: whole traces, with the ledger and the delivery
  log.
- `scenario.dfy`, module `Scenario`: trace-level corollaries and a worked
  overflow example.

Where the header and the implementation file disagree, the model follows the
implementation. The implementation has `PauseFire`/`ResumeFire` where the
header declares `Pause`/`Resume(clearBuffer)`. It also has a three-argument
`PublishData` where the header declares five arguments.

The model also follows the code on these points:

- `UpdateChannel` and `DeleteChannel` succeed on a channel whose worker has
  been told to exit. `CreateChannel` answers `ExistChannel` for such a
  name. Pausing, resuming, publishing and (un)registering answer
  `NotExistChannel` for it, as for a missing channel.
- The `Stop` status only makes `PublishData` refuse new payloads. The worker
  keeps delivering and evicting while stopped.
- Every operation answers an empty channel name with `Unsuccess`, before it
  looks anything up.

## Model

| member | source | states |
|---|---|---|
| PubSubTypes.Code | PubSubLite/src/PubSubLite.h:24-35 | every result code fits in 32 bits; only success is zero; failures lie in 0x80000000..0x80000006 |
| PubSubTypes.CodeInjective | PubSubLite/src/PubSubLite.h:24-35 | two result codes are equal exactly when the errors are the same, so a caller can tell every outcome apart by its code |
| PubSubTypes.DefaultChannelInfo | PubSubLite/src/PubSubLite.h:50-59 | a default record is running, has no worker, has zero counters and empty lists, and satisfies the channel invariant |
| PubSubTypes.TotalSizeAppend | PubSubLite/src/PubSubLite.cpp:236-237 | the byte total of two queues joined is the sum of their totals, which is what lets the running total be kept by addition |
| SubscriberList.SearchFrom | PubSubLite/src/PubSubLite.cpp:355-365 | the scan returns the first index at or after its start holding the callback, or the end when there is none |
| SubscriberList.SearchSubscriberCallback | PubSubLite/src/PubSubLite.cpp:345-366 | the result is the end position exactly when the callback is absent; otherwise it is the index of its first occurrence |
| SubscriberList.Append | PubSubLite/src/PubSubLite.cpp:281 | the callback is added at the back, the old list is the prefix, and no duplicate is introduced |
| SubscriberList.Erase | PubSubLite/src/PubSubLite.cpp:318-326 | the first occurrence of the callback is taken out and every other entry stays, in its order; one copy leaves the multiset; on a duplicate-free list the callback is gone |
| SubscriberList.EraseUndoesAppend | PubSubLite/src/PubSubLite.cpp:273-281 | erasing a callback just appended gives back the original list |
| DataBuffer.EvictionLength | PubSubLite/src/PubSubLite.cpp:432-444 | the eviction scan stops at the shortest prefix whose removal brings the total to the cap or below, and finds none only when no prefix suffices |
| DataBuffer.AdjustDataBuffer | PubSubLite/src/PubSubLite.cpp:425-447 | at or under the cap nothing changes; over it, the shortest prefix that restores the cap is dropped, its bytes are charged, each dropped payload counts as lost, every longer suffix was over the cap, and nothing else changes |
| DataBuffer.EvictionEmptiesIff | PubSubLite/src/PubSubLite.cpp:428-444 | eviction empties a non-empty queue if and only if its newest payload alone exceeds the cap |
| PubSubLite.CreateChannel | PubSubLite/src/PubSubLite.cpp:10-47 | an empty name gives Unsuccess; an existing name gives ExistChannel; otherwise a fresh running channel with a worker, the given settings, zero counters and empty lists is added and nothing else changes; failures leave the registry alone (the name is looked up by exact match with `SearchChannelInfo`, the map lookup of lines 333-343) |
| PubSubLite.CreateChannelWithDefaults | PubSubLite/src/PubSubLite.h:21-22 | creation with the arguments left out uses a 1000 ms flush time and a 10485760-byte cap |
| PubSubLite.UpdateChannel | PubSubLite/src/PubSubLite.cpp:49-84 | Unsuccess for an empty name, NotExistChannel for an unknown one, otherwise only the flush time and cap of that channel change; the queue is not trimmed (the name is looked up by exact match with `SearchChannelInfo`, the map lookup of lines 333-343) |
| PubSubLite.DeleteChannel | PubSubLite/src/PubSubLite.cpp:86-128 | Unsuccess for an empty name, NotExistChannel for an unknown one, otherwise exactly that channel is removed and all others are kept (the name is looked up by exact match with `SearchChannelInfo`, the map lookup of lines 333-343) |
| PubSubLite.SetFireStatus | PubSubLite/src/PubSubLite.cpp:138-162 | an empty name gives Unsuccess; a channel that is absent or exiting gives NotExistChannel; otherwise only its status changes (the name is looked up by exact match with `SearchChannelInfo`, the map lookup of lines 333-343) |
| PubSubLite.PauseFire | PubSubLite/src/PubSubLite.cpp:130-163 | each result code is given by an if-and-only-if: Unsuccess for an empty name, NotExistChannel for an absent or exiting channel, success on a live one; on success only its status changes, to Stop; failures leave the registry alone |
| PubSubLite.ResumeFire | PubSubLite/src/PubSubLite.cpp:165-198 | each result code is given by an if-and-only-if: Unsuccess for an empty name, NotExistChannel for an absent or exiting channel, success on a live one; on success only its status changes, to Running; failures leave the registry alone |
| PubSubLite.PublishData | PubSubLite/src/PubSubLite.cpp:200-242 | each result code is given by an if-and-only-if: Unsuccess for an empty name, null data or zero size; NotExistChannel for a missing or exiting channel; BeStoppedFire for a stopped one; on success the payload is appended to the back of the queue and its size added to the total, with nothing else changed (the name is looked up by exact match with `SearchChannelInfo`, the map lookup of lines 333-343) |
| PubSubLite.RegisterSubscriber | PubSubLite/src/PubSubLite.cpp:244-286 | each result code is given by an if-and-only-if, with ExistSubscriber for a callback already present; on success the callback is appended and the list stays duplicate-free (the name is looked up by exact match with `SearchChannelInfo`, the map lookup of lines 333-343) |
| PubSubLite.UnregisterSubscriber | PubSubLite/src/PubSubLite.cpp:288-331 | each result code is given by an if-and-only-if, with NotExistSubscriber for an absent callback; on success the first occurrence of that callback leaves the list, the other subscribers keep their order, and nothing else changes (the name is looked up by exact match with `SearchChannelInfo`, the map lookup of lines 333-343) |
| PubSubLite.RegisterThenUnregister | PubSubLite/src/PubSubLite.cpp:244-331 | a successful registration followed by unregistering the same callback succeeds and restores the registry exactly |
| PubSubLite.GetFiredDataCount | PubSubLite/src/PubSubLite.h:101 | each result code is given by an if-and-only-if: Unsuccess for an empty name, NotExistChannel for an absent or exiting channel, success on a live one, where it reports the fired counter; on failure it reports zero (see `Bus.ObservedConservation` for what the counter means) |
| PubSubLite.GetLostDataCount | PubSubLite/src/PubSubLite.h:102 | each result code is given by an if-and-only-if: Unsuccess for an empty name, NotExistChannel for an absent or exiting channel, success on a live one, where it reports the lost counter; on failure it reports zero (see `Bus.ObservedConservation`) |
| FireThread.OneCallEach | PubSubLite/src/PubSubLite.cpp:401-407 | calls that go one per list entry, in list order, never reach a callback outside the list, and on a duplicate-free list reach each subscriber exactly once |
| FireThread.Deliveries | PubSubLite/src/PubSubLite.cpp:396-407 | the i-th call goes to the i-th subscriber of the snapshot, in list order, each with the payload; a callback outside the snapshot is never called; on a duplicate-free snapshot each subscriber is called exactly once |
| FireThread.FireAfterEviction | PubSubLite/src/PubSubLite.cpp:395-411 | when eviction leaves something queued, firing the front (`FireFront`: deliver, pop, charge its bytes, count it fired) loses exactly the evicted payloads, fires one, delivers the oldest survivor to the snapshot in list order, and keeps the byte total exact and within the cap |
| FireThread.FireIteration | PubSubLite/src/PubSubLite.cpp:375-414 | (with its helper `FireFront`, which delivers, pops and counts the front) the loop ends exactly on Exit; an empty queue is left alone; otherwise some oldest payloads are lost, at most one more is fired and delivered to every subscriber, the number lost is exactly what the eviction of `AdjustDataBuffer_` removes, the rest of the queue is kept in order, the byte total stays exact and within the cap, and a payload is fired exactly when the newest one fits the cap alone |
| FireThread.FireIterationAsWritten | PubSubLite/src/PubSubLite.cpp:395-411 | the loop reads the front of an empty queue exactly when the channel is not exiting, its queue is non-empty and its newest payload exceeds the cap; otherwise it agrees with the guarded iteration |
| FireThread.OversizedMessageEmptiesQueue | PubSubLite/src/PubSubLite.cpp:395-411 | a 5-byte payload on a 3-byte channel makes the loop read the front of an empty queue, while the guarded iteration counts it lost and delivers nothing |
| Bus.AllLost | PubSubLite/src/PubSubLite.cpp:440-441 | payloads dropped by eviction are all recorded as lost, in order |
| Bus.Settled | PubSubLite/src/PubSubLite.cpp:395-412 | one iteration settles the evicted payloads as lost and the delivered one as fired, in queue order |
| Bus.IterationKeepsAccounts | PubSubLite/src/PubSubLite.cpp:395-412 | after an iteration the ledger still equals settled fates followed by the queue, and the counters still count the fates |
| Bus.PublishKeepsAccounts | PubSubLite/src/PubSubLite.cpp:236-237 | appending a payload to the queue and to the ledger keeps them in agreement |
| Bus.Tag | PubSubLite/src/PubSubLite.cpp:401-407 | the log entries of an iteration give each subscriber of its channel exactly the calls the worker made to it, and give every other channel nothing |
| Bus.IterationNotices | PubSubLite/src/PubSubLite.cpp:396-411 | in one iteration each subscriber of the snapshot is called with exactly the payloads the iteration settles as fired, and no other callback is called |
| Bus.IterationKeepsHeard | PubSubLite/src/PubSubLite.cpp:396-411 | after an iteration every callback has still been called with fired payloads of the channel only, in firing order |
| Bus.QuietElsewhere | PubSubLite/src/PubSubLite.cpp:401-407 | the calls made by one channel's worker change nothing another channel's subscribers received |
| Bus.StepKeepsConsistent | PubSubLite/src/PubSubLite.cpp:375-414 | the record, ledger and log after an iteration keep the whole engine consistent |
| Bus.StepNotices | PubSubLite/src/PubSubLite.cpp:396-411 | the log entries an iteration appends give each subscriber of the snapshot exactly the newly fired payloads and nobody else anything |
| Bus.WorkStep | PubSubLite/src/PubSubLite.cpp:375-414 | an iteration that goes round again installs the record it left, appends to its ledger exactly the fates it settled (evicted payloads lost, the delivered one fired), appends to the log exactly its own calls, keeps the engine consistent, and each subscriber of the snapshot gets exactly the newly fired payloads |
| Bus.WorkOn | PubSubLite/src/PubSubLite.cpp:375-414 | for a missing channel or one told to exit nothing changes; otherwise the registry takes the record `FireIteration` leaves, the ledger gains exactly the fates it settled and the log exactly its calls; the engine stays consistent, no subscriber of another channel is called, and each subscriber of the channel gets exactly the payloads newly fired |
| Bus.Reconfigure | PubSubLite/src/PubSubLite.cpp:78-79 | an operation that changes no queue and no counter installs its registry and keeps every ledger, unchanged, in agreement |
| Bus.CreateKeepsConsistent | PubSubLite/src/PubSubLite.cpp:41-42 | adding a fresh channel with an empty ledger that starts at the end of the log keeps the engine consistent |
| Bus.CreateOn | PubSubLite/src/PubSubLite.cpp:10-47 | the registry is the one `CreateChannel` returns; on success the new channel gets an empty ledger starting at the current end of the log and no other ledger changes; on failure nothing changes |
| Bus.DeleteOn | PubSubLite/src/PubSubLite.cpp:86-128 | the registry is the one `DeleteChannel` returns, the ledgers are exactly those of the remaining channels, unchanged, and consistency is kept |
| Bus.PublishOn | PubSubLite/src/PubSubLite.cpp:200-242 | the registry is the one `PublishData` returns; a successful publish appends the payload to the published list of that channel's ledger only; a failed one changes nothing |
| Bus.UpdateOn | PubSubLite/src/PubSubLite.cpp:49-84 | only the registry changes, to the one `UpdateChannel` returns; ledgers and log stay, and consistency is kept |
| Bus.PauseOn | PubSubLite/src/PubSubLite.cpp:130-163 | only the registry changes, to the one `PauseFire` returns; ledgers and log stay, and consistency is kept |
| Bus.ResumeOn | PubSubLite/src/PubSubLite.cpp:165-198 | only the registry changes, to the one `ResumeFire` returns; ledgers and log stay, and consistency is kept |
| Bus.RegisterOn | PubSubLite/src/PubSubLite.cpp:244-286 | only the registry changes, to the one `RegisterSubscriber` returns; ledgers and log stay, and consistency is kept |
| Bus.UnregisterOn | PubSubLite/src/PubSubLite.cpp:288-331 | only the registry changes, to the one `UnregisterSubscriber` returns; ledgers and log stay, and consistency is kept |
| Bus.Apply | PubSubLite/src/PubSubLite.cpp:10-414 | every API call and worker iteration keeps the engine consistent (ledgers agree with queues, counters and the callback log); only worker iterations append to the log |
| Bus.Run | PubSubLite/src/PubSubLite.cpp:10-414 | any sequence of calls and iterations keeps the engine consistent and only extends the callback log |
| Bus.CountsCoverFates | PubSubLite/src/PubSubLite.cpp:410-412 | every payload that left a queue is counted exactly once, as fired or as lost |
| Bus.ObservedConservation | PubSubLite/src/PubSubLite.h:101-102 | on a live channel of a consistent engine both getters succeed, and the fired count they report plus the lost count plus the payloads still queued equals the number of successful publishes to the channel |
| Bus.Conservation | PubSubLite/src/PubSubLite.cpp:236-237 | in a consistent engine, the number of successful publishes equals fired plus lost plus still queued |
| Bus.FiredInFateOrder | PubSubLite/src/PubSubLite.cpp:404-411 | the delivered payloads are the settled ones with the lost ones left out, order kept |
| Bus.Fifo | PubSubLite/src/PubSubLite.cpp:237 | the payloads any callback has been called with by a channel's worker, since the channel was created, are a subsequence of what was published to it, in publish order |
| Scenario.EveryTraceAccounts | PubSubLite/src/PubSubLite.cpp:10-414 | from an empty engine, every trace conserves each channel's payloads, and every callback has been called with them in publish order |
| Scenario.FillChannel | PubSubLite/src/PubSubLite.cpp:236-237 | three 40-byte publishes to a 100-byte channel are all accepted and queued, with 120 bytes buffered and nothing evicted at publish time |
| Scenario.FirstIteration | PubSubLite/src/PubSubLite.cpp:428-444 | on that channel the first iteration drops the oldest payload and delivers the second |
| Scenario.SecondIteration | PubSubLite/src/PubSubLite.cpp:401-412 | the next iteration delivers the last payload and empties the queue |
| Scenario.OverflowScenario | PubSubLite/src/PubSubLite.cpp:375-447 | two iterations end with two payloads fired, one lost, nothing buffered, and the subscriber receiving the surviving payloads in publish order |

## Left out

- Threads, critical sections, `Sleep` and thread join: each API call and each
  worker iteration is one atomic step. The callback loop runs outside the
  lock. Meanwhile other calls can change the configuration or status, append
  to the back of the queue, or edit the subscriber list, which the worker has
  already copied. None of them removes or replaces the front, so the front
  it reads and pops is the one it evicted down to.
- Lazy initialisation of the critical section (`LockCount == 0`) and
  `kSyncSpinCount`: these only affect locking.
- The flush time only sets how long an idle worker sleeps. It is stored and
  updated but has no other effect. An idle iteration returns the channel
  unchanged.
- The worker thread handle is reduced to the flag `hasFireThread`.
  `DeleteChannel` sets the status to exit, joins the worker and erases the
  channel. The model erases the channel in one step, so a channel that is
  present but exiting is never reached from an empty engine. The operations
  still handle it as the code does.
- The header's `userContext` and `fireCallbackList` arguments of
  `PublishData`, the `PublishedData` tuple, and `Resume(clearBuffer)`: these
  appear only in the header, and the implementation does not use them.
- `kNotEnoughBufferSize`: it is declared but never returned. It is kept
  only as a code value.
- Channel names are `std::wstring`; here they are `string`. Only equality
  and emptiness matter.
- Invoking a callback is recorded as a delivery and not executed. A callback
  is identified by its address.
- PubSubLite.PublishData: does not model 32-bit wrap-around of
  `currentBufferedDataSize`, because counts are unbounded. Above 4 GiB
  buffered, the source's total would wrap and the cap check would go wrong.
- DataBuffer.AdjustDataBuffer: does not model 32-bit wrap-around of the
  deleted-byte sum or of `lostDataCount`, because counts are unbounded. It
  also requires the byte total to match the queue, which the channel
  invariant guarantees between operations.
- FireThread.FireIteration: does not model 32-bit wrap-around of
  `firedDataCount`, because counts are unbounded.
- PubSubLite.GetFiredDataCount and PubSubLite.GetLostDataCount are declared
  in the header but have no definition in the implementation file. They are
  modelled as reads of the counter, with the same name and liveness checks
  as the other operations.
- The example program `main.cpp` is not part of this model.

## Findings

| source | as written | input that shows it | evidently intended | confidence | as-written member | corrected member |
|---|---|---|---|---|---|---|
| PubSubLite/src/PubSubLite.cpp:395-411 | after eviction the worker reads and pops the front of the queue without checking that eviction left anything | a running channel with a 3-byte cap whose only queued payload has 5 bytes: eviction drops it, then the loop dereferences the front of the empty list | when eviction empties the queue, count the payloads lost and deliver nothing | not executed | FireThread.FireIterationAsWritten, FireThread.OversizedMessageEmptiesQueue | FireThread.FireIteration |

/** The whole engine as a sequential state machine: the registry plus, per
    channel, a ledger of what was published and what became of it, plus the
    log of every callback invocation. Every API call and every worker
    iteration is one event. The ledger shows that each successful publish is
    fired, lost or still queued; the log shows that each subscriber received
    fired payloads only, in publish order. */
module Bus {
  import opened PubSubTypes
  import opened PubSubLite
  import opened FireThread
  import opened Subsequences

  /** What became of a published payload that has left the queue. */
  datatype Fate = Fired(payload: Bytes) | Lost(payload: Bytes)

  /** Everything successfully published to one channel, oldest first, the
      fates of those that have left its queue, in order, and the length the
      callback log had when the channel was created. */
  datatype Ledger = Ledger(published: seq<Bytes>, fates: seq<Fate>, since: nat)

  /** One callback invocation made by the worker of `channel`. */
  datatype Notice = Notice(channel: string, subscriber: Callback, payload: Bytes)

  datatype Engine = Engine(registry: Registry, ledgers: map<string, Ledger>, log: seq<Notice>)

  /** The calls a caller or a worker can make. */
  datatype Event =
    | Create(name: string, flushTime: nat, maxBufferedDataSize: nat)
    | Update(name: string, flushTime: nat, maxBufferedDataSize: nat)
    | Delete(name: string)
    | Pause(name: string)
    | Resume(name: string)
    | Publish(name: string, data: Option<Bytes>)
    | Register(name: string, callback: Callback)
    | Unregister(name: string, callback: Callback)
    | Work(name: string)

  /** The payloads of the fates, in order. */
  function Payloads(fs: seq<Fate>): seq<Bytes>
  {
    seq(|fs|, i requires 0 <= i < |fs| => fs[i].payload)
  }

  function FiredCount(fs: seq<Fate>): nat
  {
    if fs == [] then 0 else (if fs[0].Fired? then 1 else 0) + FiredCount(fs[1..])
  }

  function LostCount(fs: seq<Fate>): nat
  {
    if fs == [] then 0 else (if fs[0].Lost? then 1 else 0) + LostCount(fs[1..])
  }

  /** The payloads that were delivered, in delivery order. */
  function FiredPayloads(fs: seq<Fate>): seq<Bytes>
  {
    if fs == [] then []
    else if fs[0].Fired? then [fs[0].payload] + FiredPayloads(fs[1..])
    else FiredPayloads(fs[1..])
  }

  lemma {:induction false} CountsAppend(a: seq<Fate>, b: seq<Fate>)
    ensures FiredCount(a + b) == FiredCount(a) + FiredCount(b)
    ensures LostCount(a + b) == LostCount(a) + LostCount(b)
    ensures FiredPayloads(a + b) == FiredPayloads(a) + FiredPayloads(b)
    decreases |a|
  {
    if a == [] {
      assert a + b == b;
    } else {
      assert (a + b)[0] == a[0];
      assert (a + b)[1..] == a[1..] + b;
      CountsAppend(a[1..], b);
    }
  }

  lemma FatesAppend(a: seq<Fate>, b: seq<Fate>)
    ensures Payloads(a + b) == Payloads(a) + Payloads(b)
    ensures FiredCount(a + b) == FiredCount(a) + FiredCount(b)
    ensures LostCount(a + b) == LostCount(a) + LostCount(b)
    ensures FiredPayloads(a + b) == FiredPayloads(a) + FiredPayloads(b)
  {
    assert Payloads(a + b) == Payloads(a) + Payloads(b);
    CountsAppend(a, b);
  }

  /** Every fate is either a delivery or a loss. */
  lemma {:induction false} CountsCoverFates(fs: seq<Fate>)
    ensures FiredCount(fs) + LostCount(fs) == |fs|
    decreases |fs|
  {
    if fs != [] {
      CountsCoverFates(fs[1..]);
    }
  }

  /** The fates of payloads dropped by eviction. */
  function AllLost(ps: seq<Bytes>): (fs: seq<Fate>)
    ensures Payloads(fs) == ps
    ensures FiredCount(fs) == 0 && LostCount(fs) == |ps|
    ensures FiredPayloads(fs) == []
  {
    if ps == [] then []
    else
      var rest := AllLost(ps[1..]);
      FatesAppend([Lost(ps[0])], rest);
      [Lost(ps[0])] + rest
  }

  /** The payloads subscriber `s` of channel `n` was called with, in call
      order. */
  function Received(log: seq<Notice>, n: string, s: Callback): seq<Bytes>
  {
    if log == [] then []
    else (if log[0].channel == n && log[0].subscriber == s then [log[0].payload] else [])
         + Received(log[1..], n, s)
  }

  lemma {:induction false} ReceivedAppend(a: seq<Notice>, b: seq<Notice>, n: string, s: Callback)
    ensures Received(a + b, n, s) == Received(a, n, s) + Received(b, n, s)
    decreases |a|
  {
    if a == [] {
      assert a + b == b;
    } else {
      assert (a + b)[1..] == a[1..] + b;
      ReceivedAppend(a[1..], b, n, s);
    }
  }

  /** The notices of the calls `ds` made by the worker of `name`: to each
      subscriber of `name` exactly its calls, to other channels nothing. */
  function Tag(name: string, ds: seq<Delivery>): (ns: seq<Notice>)
    ensures forall n, s :: Received(ns, n, s) == if n == name then CallsTo(ds, s) else []
  {
    if ds == [] then []
    else
      var head := [Notice(name, ds[0].subscriber, ds[0].payload)];
      var rest := Tag(name, ds[1..]);
      assert head[1..] == [];
      assert forall n, s :: Received(head + rest, n, s) == Received(head, n, s) + Received(rest, n, s) by {
        forall n, s
          ensures Received(head + rest, n, s) == Received(head, n, s) + Received(rest, n, s)
        {
          ReceivedAppend(head, rest, n, s);
        }
      }
      head + rest
  }

  /** The ledger agrees with the channel: its published payloads are the
      fates in order followed by the queue, and the counters count the
      fates. */
  predicate Accounted(l: Ledger, c: ChannelInfo)
  {
    && WellFormed(c)
    && l.published == Payloads(l.fates) + c.publishedDataList
    && FiredCount(l.fates) == c.firedDataCount
    && LostCount(l.fates) == c.lostDataCount
  }

  /** The ledger agrees with the log: since the channel was created, each
      callback was called with fired payloads of channel `n` only, in the
      order they were fired. */
  ghost predicate Heard(l: Ledger, log: seq<Notice>, n: string)
  {
    && l.since <= |log|
    && forall s :: IsSubsequence(Received(log[l.since..], n, s), FiredPayloads(l.fates))
  }

  ghost predicate Consistent(eng: Engine)
  {
    && eng.ledgers.Keys == eng.registry.Keys
    && forall n :: n in eng.registry ==>
         Accounted(eng.ledgers[n], eng.registry[n]) && Heard(eng.ledgers[n], eng.log, n)
  }

  const Empty: Engine := Engine(map[], map[], [])

  /** The fates one worker iteration settles: the `k` evicted payloads are
      lost and, if one was fired, the next one is delivered. */
  function Settled(q: seq<Bytes>, k: nat, fired: bool): (fs: seq<Fate>)
    requires k + (if fired then 1 else 0) <= |q|
    ensures Payloads(fs) == q[..k + (if fired then 1 else 0)]
    ensures FiredCount(fs) == (if fired then 1 else 0) && LostCount(fs) == k
    ensures FiredPayloads(fs) == if fired then [q[k]] else []
  {
    var lost := AllLost(q[..k]);
    if fired then
      FatesAppend(lost, [Fired(q[k])]);
      assert q[..k + 1] == q[..k] + [q[k]];
      lost + [Fired(q[k])]
    else lost
  }

  /** The fates settled by an iteration that went round again. */
  function SettledIn(c: ChannelInfo, c': ChannelInfo): seq<Fate>
    requires Settles(c, c')
  {
    Settled(c.publishedDataList, LostIn(c, c'), FiredIn(c, c') == 1)
  }

  /** The ledger after an iteration that went round again: the payloads it
      evicted are lost and the one it delivered, if any, is fired. */
  function SettleIteration(l: Ledger, c: ChannelInfo, c': ChannelInfo): Ledger
    requires Settles(c, c')
  {
    l.(fates := l.fates + SettledIn(c, c'))
  }

  lemma SliceAppend<T>(a: seq<T>, b: seq<T>, i: nat)
    requires i <= |a|
    ensures (a + b)[i..] == a[i..] + b
  {
  }

  lemma SplitJoin<T>(p: seq<T>, q: seq<T>, m: nat)
    requires m <= |q|
    ensures p + q[..m] + q[m..] == p + q
  {
    assert q[..m] + q[m..] == q;
  }

  /** Settling the first `k + f` queued payloads moves them from the queue
      to the fates without changing what the ledger says was published. */
  lemma SettleKeepsPublished(l: Ledger, q: seq<Bytes>, k: nat, fired: bool)
    requires l.published == Payloads(l.fates) + q
    requires k + (if fired then 1 else 0) <= |q|
    ensures l.published
         == Payloads(l.fates + Settled(q, k, fired)) + q[k + (if fired then 1 else 0)..]
  {
    var s := Settled(q, k, fired);
    FatesAppend(l.fates, s);
    SplitJoin(Payloads(l.fates), q, k + (if fired then 1 else 0));
  }

  /** A worker iteration keeps the ledger in agreement with its channel. */
  lemma IterationKeepsAccounts(l: Ledger, c: ChannelInfo, c': ChannelInfo)
    requires Accounted(l, c)
    requires Settles(c, c')
    ensures Accounted(SettleIteration(l, c, c'), c')
  {
    var k := LostIn(c, c');
    var fired := FiredIn(c, c') == 1;
    var s := Settled(c.publishedDataList, k, fired);
    assert c'.subscriberCallbackList == c.subscriberCallbackList;
    assert c'.publishedDataList == c.publishedDataList[k + (if fired then 1 else 0)..];
    SettleKeepsPublished(l, c.publishedDataList, k, fired);
    FatesAppend(l.fates, s);
  }

  /** In one iteration each subscriber of the snapshot is called with
      exactly the payloads the iteration fired, and nobody else is called. */
  lemma IterationNotices(c: ChannelInfo, c': ChannelInfo, ds: seq<Delivery>, s: Callback)
    requires WellFormed(c)
    requires Settles(c, c') && DeliveredFront(c, c', ds)
    ensures CallsTo(ds, s)
         == if s in c.subscriberCallbackList then FiredPayloads(SettledIn(c, c')) else []
  {
  }

  /** What a callback received over two stretches of log, each in order
      within its own fired payloads, is in order within both together. */
  lemma ReceivedInOrder(a: seq<Notice>, b: seq<Notice>, n: string, s: Callback,
                        p: seq<Bytes>, q: seq<Bytes>)
    requires IsSubsequence(Received(a, n, s), p) && IsSubsequence(Received(b, n, s), q)
    ensures IsSubsequence(Received(a + b, n, s), p + q)
  {
    ReceivedAppend(a, b, n, s);
    SubsequenceConcat(Received(a, n, s), p, Received(b, n, s), q);
  }

  /** A worker iteration keeps its channel's log in agreement with its
      ledger. */
  lemma IterationKeepsHeard(l: Ledger, c: ChannelInfo, c': ChannelInfo, ds: seq<Delivery>,
                            log: seq<Notice>, name: string)
    requires Accounted(l, c) && Heard(l, log, name)
    requires Settles(c, c') && DeliveredFront(c, c', ds)
    ensures Heard(SettleIteration(l, c, c'), log + Tag(name, ds), name)
  {
    var t := Tag(name, ds);
    var fs := SettledIn(c, c');
    var l' := SettleIteration(l, c, c');
    assert l'.since == l.since && l'.fates == l.fates + fs;
    FatesAppend(l.fates, fs);
    var before := log[l.since..];
    SliceAppend(log, t, l.since);
    forall s
      ensures IsSubsequence(Received(before + t, name, s), FiredPayloads(l.fates) + FiredPayloads(fs))
    {
      assert IsSubsequence(Received(before, name, s), FiredPayloads(l.fates));
      assert Received(t, name, s) == CallsTo(ds, s);
      IterationNotices(c, c', ds, s);
      SubsequenceRefl(FiredPayloads(fs));
      ReceivedInOrder(before, t, name, s, FiredPayloads(l.fates), FiredPayloads(fs));
    }
  }

  /** The calls of one channel's worker are nothing to another channel. */
  lemma QuietElsewhere(l: Ledger, log: seq<Notice>, n: string, name: string, ds: seq<Delivery>)
    requires n != name
    requires Heard(l, log, n)
    ensures Heard(l, log + Tag(name, ds), n)
  {
    var t := Tag(name, ds);
    SliceAppend(log, t, l.since);
    forall s
      ensures Received((log + t)[l.since..], n, s) == Received(log[l.since..], n, s)
    {
      ReceivedAppend(log[l.since..], t, n, s);
    }
  }

  /** Replacing one channel's record and ledger, and the log, by ones that
      agree keeps the whole engine consistent. */
  lemma ReplaceKeepsConsistent(eng: Engine, reg: Registry, name: string, l: Ledger, log: seq<Notice>)
    requires Consistent(eng)
    requires OthersUnchanged(eng.registry, reg, name)
    requires name in reg
    requires Accounted(l, reg[name]) && Heard(l, log, name)
    requires forall n :: n in eng.registry && n != name ==> Heard(eng.ledgers[n], log, n)
    ensures Consistent(Engine(reg, eng.ledgers[name := l], log))
  {
    var ls := eng.ledgers[name := l];
    forall n | n in reg
      ensures Accounted(ls[n], reg[n]) && Heard(ls[n], log, n)
    {
      if n != name {
        assert ls[n] == eng.ledgers[n] && reg[n] == eng.registry[n];
      }
    }
  }

  /** The iteration's ledger and log keep the whole engine consistent. */
  lemma StepKeepsConsistent(eng: Engine, name: string, c: ChannelInfo, c': ChannelInfo, ds: seq<Delivery>)
    requires Consistent(eng)
    requires name in eng.registry && c == eng.registry[name]
    requires Settles(c, c') && DeliveredFront(c, c', ds)
    ensures Consistent(Engine(eng.registry[name := c'],
                              eng.ledgers[name := SettleIteration(eng.ledgers[name], c, c')],
                              eng.log + Tag(name, ds)))
  {
    var l := eng.ledgers[name];
    var log := eng.log + Tag(name, ds);
    IterationKeepsAccounts(l, c, c');
    IterationKeepsHeard(l, c, c', ds, eng.log, name);
    forall n | n in eng.registry && n != name
      ensures Heard(eng.ledgers[n], log, n)
    {
      QuietElsewhere(eng.ledgers[n], eng.log, n, name, ds);
    }
    ReplaceKeepsConsistent(eng, eng.registry[name := c'], name, SettleIteration(l, c, c'), log);
  }

  /** The notices an iteration appends: each subscriber of the snapshot gets
      exactly the payloads the iteration settled as fired, nobody else gets
      anything. */
  lemma StepNotices(log: seq<Notice>, l: Ledger, name: string, c: ChannelInfo, c': ChannelInfo, ds: seq<Delivery>)
    requires WellFormed(c)
    requires Settles(c, c') && DeliveredFront(c, c', ds)
    ensures forall n, s :: Received((log + Tag(name, ds))[|log|..], n, s)
                        == if n == name && s in c.subscriberCallbackList
                           then FiredPayloads(SettleIteration(l, c, c').fates[|l.fates|..])
                           else []
  {
    assert (log + Tag(name, ds))[|log|..] == Tag(name, ds);
    assert SettleIteration(l, c, c').fates[|l.fates|..] == SettledIn(c, c');
    forall s
      ensures CallsTo(ds, s)
           == if s in c.subscriberCallbackList then FiredPayloads(SettledIn(c, c')) else []
    {
      IterationNotices(c, c', ds, s);
    }
  }

  /** An iteration only appends fates to its own channel's ledger. */
  lemma StepLedgers(ledgers: map<string, Ledger>, name: string, l': Ledger)
    requires name in ledgers
    requires l'.published == ledgers[name].published && l'.since == ledgers[name].since
    requires ledgers[name].fates <= l'.fates
    ensures forall n :: n in ledgers ==>
              && ledgers[name := l'][n].published == ledgers[n].published
              && ledgers[name := l'][n].since == ledgers[n].since
              && ledgers[n].fates <= ledgers[name := l'][n].fates
  {
  }

  /** The worker iteration of `name` on its channel record `c`. */
  function WorkStep(eng: Engine, name: string, c: ChannelInfo, c': ChannelInfo, ds: seq<Delivery>): (r: Engine)
    requires Consistent(eng)
    requires name in eng.registry && c == eng.registry[name]
    requires Settles(c, c') && DeliveredFront(c, c', ds)
    ensures Consistent(r)
    ensures r.registry == eng.registry[name := c']
    ensures r.ledgers[name].fates == eng.ledgers[name].fates + SettledIn(c, c')
    ensures r.log == eng.log + Tag(name, ds)
    ensures forall n :: n in eng.ledgers ==>
              && r.ledgers[n].published == eng.ledgers[n].published
              && r.ledgers[n].since == eng.ledgers[n].since
              && eng.ledgers[n].fates <= r.ledgers[n].fates
    ensures eng.log <= r.log
    ensures forall n, s :: Received(r.log[|eng.log|..], n, s)
                        == if n == name && s in c.subscriberCallbackList
                           then FiredPayloads(r.ledgers[name].fates[|eng.ledgers[name].fates|..])
                           else []
  {
    var l := eng.ledgers[name];
    var l' := SettleIteration(l, c, c');
    StepKeepsConsistent(eng, name, c, c', ds);
    StepNotices(eng.log, l, name, c, c', ds);
    StepLedgers(eng.ledgers, name, l');
    Engine(eng.registry[name := c'], eng.ledgers[name := l'], eng.log + Tag(name, ds))
  }

  /** One iteration of the worker of `name`, with its ledger and log kept.
      Each subscriber of the channel is called with exactly the payloads
      the iteration settled as fired; no other callback and no other
      channel's subscriber is called. */
  function WorkOn(eng: Engine, name: string): (r: Engine)
    requires Consistent(eng)
    ensures Consistent(r)
    ensures r.registry.Keys == eng.registry.Keys
    ensures name !in eng.registry || FireIteration(eng.registry[name]).Terminate? ==> r == eng
    ensures name in eng.registry && FireIteration(eng.registry[name]).Continue? ==>
              var c := eng.registry[name];
              var it := FireIteration(c);
              && r.registry == eng.registry[name := it.channel]
              && r.ledgers[name].fates == eng.ledgers[name].fates + SettledIn(c, it.channel)
              && r.log == eng.log + Tag(name, it.deliveries)
    ensures forall n :: n in eng.ledgers ==>
              && r.ledgers[n].published == eng.ledgers[n].published
              && r.ledgers[n].since == eng.ledgers[n].since
              && eng.ledgers[n].fates <= r.ledgers[n].fates
    ensures eng.log <= r.log
    ensures forall n, s :: n != name ==> Received(r.log[|eng.log|..], n, s) == []
    ensures name in eng.registry ==>
              forall s :: Received(r.log[|eng.log|..], name, s)
                       == if s in eng.registry[name].subscriberCallbackList
                          then FiredPayloads(r.ledgers[name].fates[|eng.ledgers[name].fates|..])
                          else []
  {
    if name !in eng.registry then eng
    else
      var c := eng.registry[name];
      match FireIteration(c)
      case Terminate =>
        assert eng.log[|eng.log|..] == [];
        assert eng.ledgers[name].fates[|eng.ledgers[name].fates|..] == [];
        eng
      case Continue(c', ds) =>
        WorkStep(eng, name, c, c', ds)
  }

  /** Two records of one channel agree on everything the ledger accounts
      for: the queue and both counters. */
  predicate SameAccounts(c: ChannelInfo, c': ChannelInfo)
  {
    && c'.publishedDataList == c.publishedDataList
    && c'.firedDataCount == c.firedDataCount
    && c'.lostDataCount == c.lostDataCount
  }

  /** An operation that changes only configuration, status or subscribers
      installs its registry and leaves every ledger in agreement. */
  function Reconfigure(eng: Engine, reg: Registry): (r: Engine)
    requires Consistent(eng)
    requires reg.Keys == eng.registry.Keys
    requires RegistryWellFormed(reg)
    requires forall n :: n in reg ==> SameAccounts(eng.registry[n], reg[n])
    ensures Consistent(r)
    ensures r.registry == reg
    ensures r.log == eng.log && r.ledgers == eng.ledgers
  {
    assert forall n :: n in reg ==> Accounted(eng.ledgers[n], reg[n]) by {
      forall n | n in reg
        ensures Accounted(eng.ledgers[n], reg[n])
      {
        assert SameAccounts(eng.registry[n], reg[n]);
        assert Accounted(eng.ledgers[n], eng.registry[n]);
        assert WellFormed(reg[n]);
      }
    }
    Engine(reg, eng.ledgers, eng.log)
  }

  /** Adding a fresh channel with an empty ledger that starts at the end of
      the log keeps the engine consistent. */
  lemma CreateKeepsConsistent(eng: Engine, reg: Registry, name: string)
    requires Consistent(eng)
    requires name !in eng.registry && reg.Keys == eng.registry.Keys + {name}
    requires forall n :: n in eng.registry ==> reg[n] == eng.registry[n]
    requires IsFresh(reg[name], reg[name].flushTime, reg[name].maxBufferedDataSize)
    ensures Consistent(Engine(reg, eng.ledgers[name := Ledger([], [], |eng.log|)], eng.log))
  {
    var ls := eng.ledgers[name := Ledger([], [], |eng.log|)];
    forall n | n in reg
      ensures Accounted(ls[n], reg[n]) && Heard(ls[n], eng.log, n)
    {
      if n == name {
        assert ls[n] == Ledger([], [], |eng.log|);
        assert Payloads([]) == [] && FiredCount([]) == 0 && LostCount([]) == 0;
        assert eng.log[|eng.log|..] == [];
        assert forall s :: Received(eng.log[|eng.log|..], n, s) == [];
      } else {
        assert ls[n] == eng.ledgers[n] && reg[n] == eng.registry[n];
      }
    }
  }

  /** A created channel starts with an empty ledger that hears only calls
      made from now on. */
  function CreateOn(eng: Engine, name: string, flushTime: nat, maxBufferedDataSize: nat): (r: Engine)
    requires Consistent(eng)
    ensures Consistent(r)
    ensures r.log == eng.log
    ensures r.registry == CreateChannel(eng.registry, name, flushTime, maxBufferedDataSize).registry
    ensures CreateChannel(eng.registry, name, flushTime, maxBufferedDataSize).error == Success ==>
              r.ledgers == eng.ledgers[name := Ledger([], [], |eng.log|)]
    ensures CreateChannel(eng.registry, name, flushTime, maxBufferedDataSize).error != Success ==>
              r == eng
  {
    var rep := CreateChannel(eng.registry, name, flushTime, maxBufferedDataSize);
    if rep.error != Success then eng
    else
      CreateKeepsConsistent(eng, rep.registry, name);
      Engine(rep.registry, eng.ledgers[name := Ledger([], [], |eng.log|)], eng.log)
  }

  /** A deleted channel's ledger goes with it; every other ledger stays. */
  function DeleteOn(eng: Engine, name: string): (r: Engine)
    requires Consistent(eng)
    ensures Consistent(r)
    ensures r.log == eng.log
    ensures r.registry == DeleteChannel(eng.registry, name).registry
    ensures r.ledgers.Keys == r.registry.Keys
    ensures forall n :: n in r.ledgers ==> r.ledgers[n] == eng.ledgers[n]
  {
    var rep := DeleteChannel(eng.registry, name);
    if rep.error != Success then eng
    else Engine(rep.registry, map k | k in eng.ledgers && k != name :: eng.ledgers[k], eng.log)
  }

  /** Appending a payload to a channel's queue and to its ledger's
      published list keeps them in agreement. */
  lemma PublishKeepsAccounts(l: Ledger, c: ChannelInfo, c': ChannelInfo, d: Bytes)
    requires Accounted(l, c)
    requires WellFormed(c')
    requires c'.publishedDataList == c.publishedDataList + [d]
    requires SameAccounts(c.(publishedDataList := c'.publishedDataList), c')
    ensures Accounted(l.(published := l.published + [d]), c')
  {
    SplitJoin(Payloads(l.fates), c'.publishedDataList, |c.publishedDataList|);
    assert c'.publishedDataList[..|c.publishedDataList|] == c.publishedDataList;
    assert c'.publishedDataList[|c.publishedDataList|..] == [d];
  }

  function PublishOn(eng: Engine, name: string, data: Option<Bytes>): (r: Engine)
    requires Consistent(eng)
    ensures Consistent(r)
    ensures r.log == eng.log
    ensures r.registry == PublishData(eng.registry, name, data).registry
    ensures PublishData(eng.registry, name, data).error != Success ==> r == eng
    ensures PublishData(eng.registry, name, data).error == Success ==>
              r.ledgers == eng.ledgers[name := eng.ledgers[name].(published := eng.ledgers[name].published + [data.value])]
  {
    var rep := PublishData(eng.registry, name, data);
    if rep.error != Success then eng
    else
      var l := eng.ledgers[name];
      var l' := l.(published := l.published + [data.value]);
      PublishKeepsAccounts(l, eng.registry[name], rep.registry[name], data.value);
      assert Heard(l', eng.log, name) by {
        assert Heard(l, eng.log, name);
      }
      ReplaceKeepsConsistent(eng, rep.registry, name, l', eng.log);
      Engine(rep.registry, eng.ledgers[name := l'], eng.log)
  }

  function UpdateOn(eng: Engine, name: string, flushTime: nat, maxBufferedDataSize: nat): (r: Engine)
    requires Consistent(eng)
    ensures Consistent(r)
    ensures r == eng.(registry := UpdateChannel(eng.registry, name, flushTime, maxBufferedDataSize).registry)
  {
    Reconfigure(eng, UpdateChannel(eng.registry, name, flushTime, maxBufferedDataSize).registry)
  }

  function PauseOn(eng: Engine, name: string): (r: Engine)
    requires Consistent(eng)
    ensures Consistent(r)
    ensures r == eng.(registry := PauseFire(eng.registry, name).registry)
  {
    Reconfigure(eng, PauseFire(eng.registry, name).registry)
  }

  function ResumeOn(eng: Engine, name: string): (r: Engine)
    requires Consistent(eng)
    ensures Consistent(r)
    ensures r == eng.(registry := ResumeFire(eng.registry, name).registry)
  {
    Reconfigure(eng, ResumeFire(eng.registry, name).registry)
  }

  function RegisterOn(eng: Engine, name: string, cb: Callback): (r: Engine)
    requires Consistent(eng)
    ensures Consistent(r)
    ensures r == eng.(registry := RegisterSubscriber(eng.registry, name, cb).registry)
  {
    Reconfigure(eng, RegisterSubscriber(eng.registry, name, cb).registry)
  }

  function UnregisterOn(eng: Engine, name: string, cb: Callback): (r: Engine)
    requires Consistent(eng)
    ensures Consistent(r)
    ensures r == eng.(registry := UnregisterSubscriber(eng.registry, name, cb).registry)
  {
    Reconfigure(eng, UnregisterSubscriber(eng.registry, name, cb).registry)
  }

  /** Applies one event: an API call on the registry, or one iteration of a
      channel's worker. */
  function Apply(eng: Engine, ev: Event): (r: Engine)
    requires Consistent(eng)
    ensures Consistent(r)
    ensures eng.log <= r.log
    ensures !ev.Work? ==> r.log == eng.log
  {
    match ev
    case Create(n, ft, m) => CreateOn(eng, n, ft, m)
    case Update(n, ft, m) => UpdateOn(eng, n, ft, m)
    case Delete(n) => DeleteOn(eng, n)
    case Pause(n) => PauseOn(eng, n)
    case Resume(n) => ResumeOn(eng, n)
    case Publish(n, d) => PublishOn(eng, n, d)
    case Register(n, cb) => RegisterOn(eng, n, cb)
    case Unregister(n, cb) => UnregisterOn(eng, n, cb)
    case Work(n) => WorkOn(eng, n)
  }

  /** Applies a sequence of events in order. */
  function Run(eng: Engine, evs: seq<Event>): (r: Engine)
    requires Consistent(eng)
    ensures Consistent(r)
    ensures eng.log <= r.log
    decreases |evs|
  {
    if evs == [] then eng else Run(Apply(eng, evs[0]), evs[1..])
  }

  /** Every successful publish to a channel is fired, lost or still queued. */
  lemma Conservation(eng: Engine, n: string)
    requires Consistent(eng)
    requires n in eng.registry
    ensures |eng.ledgers[n].published|
         == eng.registry[n].firedDataCount + eng.registry[n].lostDataCount
            + |eng.registry[n].publishedDataList|
  {
    CountsCoverFates(eng.ledgers[n].fates);
  }

  /** What the counter getters report on a live channel accounts for every
      payload ever published to it: fired plus lost plus still queued. */
  lemma ObservedConservation(eng: Engine, n: string)
    requires Consistent(eng)
    requires n != "" && Live(eng.registry, n)
    ensures GetFiredDataCount(eng.registry, n).error == Success
    ensures GetLostDataCount(eng.registry, n).error == Success
    ensures GetFiredDataCount(eng.registry, n).count + GetLostDataCount(eng.registry, n).count
            + |eng.registry[n].publishedDataList|
         == |eng.ledgers[n].published|
  {
    Conservation(eng, n);
  }

  lemma {:induction false} FiredInFateOrder(fs: seq<Fate>)
    ensures IsSubsequence(FiredPayloads(fs), Payloads(fs))
    decreases |fs|
  {
    if fs != [] {
      FiredInFateOrder(fs[1..]);
      assert Payloads(fs)[1..] == Payloads(fs[1..]);
    }
  }

  /** Delivery is FIFO: what any callback of channel `n` has been called
      with since the channel was created is the channel's published
      payloads in publish order, some (lost, still queued, or fired before
      the callback registered) left out. */
  lemma Fifo(eng: Engine, n: string, s: Callback)
    requires Consistent(eng)
    requires n in eng.registry
    ensures IsSubsequence(Received(eng.log[eng.ledgers[n].since..], n, s), eng.ledgers[n].published)
  {
    var l := eng.ledgers[n];
    FiredInFateOrder(l.fates);
    SubsequenceExtend(FiredPayloads(l.fates), Payloads(l.fates), eng.registry[n].publishedDataList);
    SubsequenceTrans(Received(eng.log[l.since..], n, s), FiredPayloads(l.fates), l.published);
  }
}

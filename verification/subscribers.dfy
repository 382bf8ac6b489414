/** The per-channel subscriber list: lookup by callback identity, append on
    registration, removal of the found entry on unregistration. */
module SubscriberList {
  import opened PubSubTypes

  /** Linear scan from `from` onwards; returns the first index holding `cb`,
      or `|list|` (the end iterator) when there is none. */
  function SearchFrom(list: seq<Callback>, cb: Callback, from: nat): (i: nat)
    requires from <= |list|
    requires cb !in list[..from]
    ensures from <= i <= |list|
    ensures i < |list| ==> list[i] == cb
    ensures cb !in list[..i]
    decreases |list| - from
  {
    if from == |list| then from
    else if list[from] == cb then from
    else
      assert list[..from + 1] == list[..from] + [list[from]];
      SearchFrom(list, cb, from + 1)
  }

  /** Position of `cb` in the list, `|list|` when it is absent. */
  function SearchSubscriberCallback(list: seq<Callback>, cb: Callback): (i: nat)
    ensures i <= |list|
    ensures i < |list| <==> cb in list
    ensures i < |list| ==> list[i] == cb && cb !in list[..i]
  {
    var i := SearchFrom(list, cb, 0);
    assert i == |list| ==> list[..i] == list;
    i
  }

  /** The list after registering `cb` (the caller has checked absence). */
  function Append(list: seq<Callback>, cb: Callback): (r: seq<Callback>)
    requires cb !in list
    ensures |r| == |list| + 1 && r[..|list|] == list && r[|list|] == cb
    ensures NoDuplicates(list) ==> NoDuplicates(r)
  {
    list + [cb]
  }

  lemma RemoveAtMultiset(list: seq<Callback>, i: nat)
    requires i < |list|
    ensures multiset(list[..i] + list[i + 1..]) + multiset{list[i]} == multiset(list)
  {
    assert list == list[..i] + [list[i]] + list[i + 1..];
  }

  lemma RemoveAtNoDuplicates(list: seq<Callback>, i: nat)
    requires i < |list|
    ensures NoDuplicates(list) ==>
              list[i] !in list[..i] + list[i + 1..] && NoDuplicates(list[..i] + list[i + 1..])
  {
    var r := list[..i] + list[i + 1..];
    assert forall k :: 0 <= k < |r| ==> r[k] == if k < i then list[k] else list[k + 1];
  }

  /** `r` is `list` with the first occurrence of `cb` taken out and every
      other entry kept in its order. */
  predicate ErasedFirst(list: seq<Callback>, cb: Callback, r: seq<Callback>)
  {
    exists i :: 0 <= i < |list| && list[i] == cb && cb !in list[..i] && r == list[..i] + list[i + 1..]
  }

  /** The list after erasing the entry found by the search. */
  function Erase(list: seq<Callback>, cb: Callback): (r: seq<Callback>)
    requires cb in list
    ensures multiset(r) + multiset{cb} == multiset(list)
    ensures |r| == |list| - 1
    ensures forall x :: x != cb ==> (x in r <==> x in list)
    ensures NoDuplicates(list) ==> cb !in r && NoDuplicates(r)
    ensures ErasedFirst(list, cb, r)
  {
    var i := SearchSubscriberCallback(list, cb);
    RemoveAtMultiset(list, i);
    RemoveAtNoDuplicates(list, i);
    var r := list[..i] + list[i + 1..];
    assert forall x :: x != cb ==> multiset(r)[x] == multiset(list)[x];
    r
  }

  /** Registering an absent callback and then unregistering it gives back
      the original list. */
  lemma EraseUndoesAppend(list: seq<Callback>, cb: Callback)
    requires cb !in list
    ensures Erase(Append(list, cb), cb) == list
  {
    var l := Append(list, cb);
    assert cb !in l[..|list|];
    assert SearchSubscriberCallback(l, cb) == |list|;
  }
}

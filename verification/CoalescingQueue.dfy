/** The per-connection queue: bounded, first in first out, keeping the latest message per key. */
module CoalescingQueues {
  import opened Base

  /** A message without a key of its own gets a fresh number and is never coalesced. */
  datatype SlotKey<+K> = Auto(n: nat) | Of(k: K)

  datatype Slot<+K, +M> = Slot(key: SlotKey<K>, msg: M)

  predicate Distinct<K(==), M>(items: seq<Slot<K, M>>) {
    forall i, j :: 0 <= i < j < |items| ==> items[i].key != items[j].key
  }

  predicate Pending<K(==), M>(items: seq<Slot<K, M>>, key: SlotKey<K>) {
    exists i :: 0 <= i < |items| && items[i].key == key
  }

  predicate Accepts<K(==), M>(items: seq<Slot<K, M>>, key: SlotKey<K>, maxsize: nat) {
    Pending(items, key) || |items| < maxsize
  }

  /** A pending key keeps its place and takes the new message; a new key goes last. */
  function Placed<K(==), M>(items: seq<Slot<K, M>>, slot: Slot<K, M>): seq<Slot<K, M>> {
    if items == [] then [slot]
    else if items[0].key == slot.key then [slot] + items[1..]
    else [items[0]] + Placed(items[1..], slot)
  }

  lemma {:induction false} PlacedAt<K, M>(items: seq<Slot<K, M>>, slot: Slot<K, M>, i: nat)
    requires i <= |items| && forall j :: 0 <= j < i ==> items[j].key != slot.key
    requires i < |items| ==> items[i].key == slot.key
    ensures Placed(items, slot) == if i < |items| then items[i := slot] else items + [slot]
  {
    if 0 < i {
      var head, rest := items[0], items[1..];
      PlacedAt(rest, slot, i - 1);
      if i < |items| {
        assert items[i := slot] == [head] + rest[i - 1 := slot];
      } else {
        assert items + [slot] == [head] + (rest + [slot]);
      }
    } else if items != [] {
      assert items[0 := slot] == [slot] + items[1..];
    }
  }

  ghost predicate WellKept<K, M>(items: seq<Slot<K, M>>, seqNo: nat, maxsize: nat) {
    && Distinct(items) && |items| <= maxsize
    && forall i :: 0 <= i < |items| && items[i].key.Auto? ==> items[i].key.n < seqNo
  }

  // ---- Whole runs -------------------------------------------------------------------

  datatype Op<+K, +M> = Put(key: Option<K>, msg: M) | Take

  /** A queue with its history: the accepted messages, the keys newly inserted, and the
      messages consumed, each in order. */
  datatype Log<+K, +M> = Log(items: seq<Slot<K, M>>, seqNo: nat,
                             accepted: seq<Slot<K, M>>, inserted: seq<SlotKey<K>>, consumed: seq<Slot<K, M>>)

  function Step<K(==), M>(log: Log<K, M>, op: Op<K, M>, maxsize: nat): Log<K, M> {
    match op
    case Put(key, msg) =>
      var k := if key.Some? then Of(key.value) else Auto(log.seqNo);
      var next := if key.None? then log.seqNo + 1 else log.seqNo;
      if !Accepts(log.items, k, maxsize) then log.(seqNo := next)
      else Log(Placed(log.items, Slot(k, msg)), next, log.accepted + [Slot(k, msg)],
               if Pending(log.items, k) then log.inserted else log.inserted + [k], log.consumed)
    case Take =>
      if log.items == [] then log
      else log.(items := log.items[1..], consumed := log.consumed + [log.items[0]])
  }

  function Run<K(==), M>(ops: seq<Op<K, M>>, maxsize: nat): Log<K, M> {
    if ops == [] then Log([], 0, [], [], [])
    else Step(Run(ops[..|ops| - 1], maxsize), ops[|ops| - 1], maxsize)
  }

  /** The last message per key. */
  function Latest<K(==), M>(slots: seq<Slot<K, M>>): map<SlotKey<K>, M> {
    if slots == [] then map[]
    else var n := |slots| - 1; Latest(slots[..n])[slots[n].key := slots[n].msg]
  }

  /** The messages without a key of their own, in order. */
  function Unkeyed<K(==), M>(slots: seq<Slot<K, M>>): seq<M> {
    if slots == [] then []
    else var n := |slots| - 1; Unkeyed(slots[..n]) + if slots[n].key.Auto? then [slots[n].msg] else []
  }

  function Keys<K, M>(slots: seq<Slot<K, M>>): seq<SlotKey<K>> {
    seq(|slots|, i requires 0 <= i < |slots| => slots[i].key)
  }

  lemma {:induction false} LatestReplace<K, M>(pre: seq<Slot<K, M>>, items: seq<Slot<K, M>>, i: nat, slot: Slot<K, M>)
    requires Distinct(items) && i < |items| && items[i].key == slot.key
    ensures Latest(pre + items[i := slot]) == Latest(pre + items)[slot.key := slot.msg]
    decreases |items|
  {
    var n := |items| - 1;
    var before, after := pre + items, pre + items[i := slot];
    assert before[..|before| - 1] == pre + items[..n];
    if i == n {
      assert after[..|after| - 1] == pre + items[..n];
    } else {
      assert after[..|after| - 1] == pre + items[..n][i := slot];
      LatestReplace(pre, items[..n], i, slot);
    }
  }

  lemma {:induction false} UnkeyedReplace<K, M>(pre: seq<Slot<K, M>>, items: seq<Slot<K, M>>, i: nat, slot: Slot<K, M>)
    requires i < |items| && items[i].key == slot.key && slot.key.Of?
    ensures Unkeyed(pre + items[i := slot]) == Unkeyed(pre + items)
    decreases |items|
  {
    var n := |items| - 1;
    var before, after := pre + items, pre + items[i := slot];
    assert before[..|before| - 1] == pre + items[..n];
    if i == n {
      assert after[..|after| - 1] == pre + items[..n];
    } else {
      assert after[..|after| - 1] == pre + items[..n][i := slot];
      UnkeyedReplace(pre, items[..n], i, slot);
    }
  }

  ghost predicate Faithful<K, M>(log: Log<K, M>, maxsize: nat) {
    var seen := log.consumed + log.items;
    && WellKept(log.items, log.seqNo, maxsize)
    && Latest(seen) == Latest(log.accepted)
    && Unkeyed(seen) == Unkeyed(log.accepted)
    && Keys(seen) == log.inserted
  }

  lemma AppendSlot<K, M>(slots: seq<Slot<K, M>>, slot: Slot<K, M>)
    ensures Latest(slots + [slot]) == Latest(slots)[slot.key := slot.msg]
    ensures Unkeyed(slots + [slot]) == Unkeyed(slots) + if slot.key.Auto? then [slot.msg] else []
    ensures Keys(slots + [slot]) == Keys(slots) + [slot.key]
  {
    assert (slots + [slot])[..|slots|] == slots;
  }

  lemma ReplaceFaithful<K, M>(log: Log<K, M>, i: nat, slot: Slot<K, M>, maxsize: nat)
    requires Faithful(log, maxsize)
    requires i < |log.items| && log.items[i].key == slot.key && slot.key.Of?
    ensures Faithful(log.(items := log.items[i := slot], accepted := log.accepted + [slot]), maxsize)
  {
    LatestReplace(log.consumed, log.items, i, slot);
    UnkeyedReplace(log.consumed, log.items, i, slot);
    AppendSlot(log.accepted, slot);
    assert Keys(log.consumed + log.items[i := slot]) == Keys(log.consumed + log.items);
  }

  lemma InsertFaithful<K, M>(log: Log<K, M>, slot: Slot<K, M>, next: nat, maxsize: nat)
    requires Faithful(log, maxsize)
    requires !Pending(log.items, slot.key) && |log.items| < maxsize
    requires log.seqNo <= next && (slot.key.Auto? ==> slot.key.n < next)
    ensures Faithful(Log(log.items + [slot], next, log.accepted + [slot], log.inserted + [slot.key], log.consumed),
                     maxsize)
  {
    var seen := log.consumed + log.items;
    AppendSlot(seen, slot);
    AppendSlot(log.accepted, slot);
    assert log.consumed + (log.items + [slot]) == seen + [slot];
  }

  lemma PutFaithful<K, M>(log: Log<K, M>, key: Option<K>, msg: M, maxsize: nat)
    requires Faithful(log, maxsize)
    ensures Faithful(Step(log, Put(key, msg), maxsize), maxsize)
  {
    var k := if key.Some? then Of(key.value) else Auto(log.seqNo);
    var next := if key.None? then log.seqNo + 1 else log.seqNo;
    var slot := Slot(k, msg);
    if Pending(log.items, k) {
      var i :| 0 <= i < |log.items| && log.items[i].key == k;
      PlacedAt(log.items, slot, i);
      ReplaceFaithful(log, i, slot, maxsize);
    } else if |log.items| < maxsize {
      PlacedAt(log.items, slot, |log.items|);
      InsertFaithful(log, slot, next, maxsize);
    }
  }

  lemma TakeFaithful<K, M>(log: Log<K, M>, maxsize: nat)
    requires Faithful(log, maxsize)
    ensures Faithful(Step(log, Take, maxsize), maxsize)
  {
    if log.items != [] {
      assert log.consumed + [log.items[0]] + log.items[1..] == log.consumed + log.items;
    }
  }

  /** Coalescing preserves meaning: over any interleaving of puts and gets, the consumed
      messages followed by the pending ones leave the same message per key as every
      accepted message uncoalesced; messages without a key all survive in order; the bound
      holds; and messages come out in the order their keys went in, so no key is overtaken
      by one inserted after it. */
  lemma {:induction false} CoalescingPreservesMeaning<K, M>(ops: seq<Op<K, M>>, maxsize: nat)
    ensures var log := Run(ops, maxsize);
            var seen := log.consumed + log.items;
            && Latest(seen) == Latest(log.accepted)
            && Unkeyed(seen) == Unkeyed(log.accepted)
            && Keys(seen) == log.inserted
            && |log.items| <= maxsize
    ensures Faithful(Run(ops, maxsize), maxsize)
    decreases |ops|
  {
    if ops != [] {
      var n := |ops| - 1;
      CoalescingPreservesMeaning(ops[..n], maxsize);
      var log := Run(ops[..n], maxsize);
      match ops[n]
      case Put(key, msg) => PutFaithful(log, key, msg, maxsize);
      case Take => TakeFaithful(log, maxsize);
    }
  }

  // ---- What is refused --------------------------------------------------------------

  /** The different keys pending are as many as the slots. */
  lemma {:induction false} KeysAreSlots<K, M>(items: seq<Slot<K, M>>)
    requires Distinct(items)
    ensures |set slot | slot in items :: slot.key| == |items|
    decreases |items|
  {
    if items != [] {
      var n := |items| - 1;
      KeysAreSlots(items[..n]);
      var before, all := set slot | slot in items[..n] :: slot.key, set slot | slot in items :: slot.key;
      assert items == items[..n] + [items[n]];
      assert items[n].key !in before;
      assert all == before + {items[n].key};
    }
  }

  /** A put is refused if and only if its key is not pending and as many different keys as the
      bound allows are: however full the queue, a pending key takes its new message. */
  lemma RefusedIff<K, M>(ops: seq<Op<K, M>>, key: Option<K>, msg: M, maxsize: nat)
    ensures var log := Run(ops, maxsize);
            var keys := set slot | slot in log.items :: slot.key;
            && (Step(log, Put(key, msg), maxsize).accepted == log.accepted
                <==> (key.None? || Of(key.value) !in keys) && |keys| == maxsize)
            && |keys| <= maxsize
  {
    CoalescingPreservesMeaning(ops, maxsize);
    var log := Run(ops, maxsize);
    KeysAreSlots(log.items);
    if key.Some? && Pending(log.items, Of(key.value)) {
      var i :| 0 <= i < |log.items| && log.items[i].key == Of(key.value);
      assert log.items[i] in log.items;
    }
  }

  // ---- The queue --------------------------------------------------------------------

  class CoalescingQueue<K(==), M> {
    const maxsize: nat
    var items: seq<Slot<K, M>>
    var seqNo: nat
    ghost var log: Log<K, M>

    /** The queue is what its history made of it, and says what all accepted messages say. */
    ghost predicate Valid()
      reads this
    {
      && log.items == items && log.seqNo == seqNo
      && Faithful(log, maxsize)
    }

    constructor (maxsize: nat)
      ensures Valid() && items == [] && this.maxsize == maxsize && log == Run([], maxsize)
    {
      this.maxsize := maxsize;
      items := [];
      seqNo := 0;
      log := Log([], 0, [], [], []);
    }

    /** Returns false where the source raises QueueFull: a message is refused only when no
        slot holds its key and the queue is full. */
    method PutNowait(msg: M, key: Option<K>) returns (ok: bool)
      requires Valid()
      modifies this
      ensures Valid() && log == Step(old(log), Put(key, msg), maxsize)
      ensures seqNo == if key.None? then old(seqNo) + 1 else old(seqNo)
      ensures ok <==> (key.Some? && exists i :: 0 <= i < |old(items)| && old(items)[i].key == Of(key.value))
                      || |old(items)| < maxsize
      ensures var k := if key.Some? then Of(key.value) else Auto(old(seqNo));
              && (forall i :: 0 <= i < |old(items)| && old(items)[i].key == k ==>
                    items == old(items)[i := Slot(k, msg)])
              && (ok && (forall i :: 0 <= i < |old(items)| ==> old(items)[i].key != k) ==>
                    items == old(items) + [Slot(k, msg)])
      ensures !ok ==> items == old(items)
    {
      PutFaithful(log, key, msg, maxsize);
      log := Step(log, Put(key, msg), maxsize);
      var k: SlotKey<K>;
      if key.None? {
        k := Auto(seqNo);
        seqNo := seqNo + 1;
      } else {
        k := Of(key.value);
      }
      var i := 0;
      while i < |items| && items[i].key != k
        invariant 0 <= i <= |items|
        invariant forall j :: 0 <= j < i ==> items[j].key != k
      {
        i := i + 1;
      }
      if i == |items| && |items| >= maxsize {
        return false;
      }
      PlacedAt(items, Slot(k, msg), i);
      if i < |items| {
        items := items[i := Slot(k, msg)];
      } else {
        items := items + [Slot(k, msg)];
      }
      return true;
    }

    /** Returns None where the source raises QueueEmpty. */
    method GetNowait() returns (msg: Option<M>)
      requires Valid()
      modifies this
      ensures Valid() && seqNo == old(seqNo) && log == Step(old(log), Take, maxsize)
      ensures old(items) == [] ==> msg == None && items == []
      ensures old(items) != [] ==> msg == Some(old(items)[0].msg) && items == old(items)[1..]
    {
      TakeFaithful(log, maxsize);
      log := Step(log, Take, maxsize);
      if items == [] {
        return None;
      }
      msg := Some(items[0].msg);
      items := items[1..];
    }
  }
}

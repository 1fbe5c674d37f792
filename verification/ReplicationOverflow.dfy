/** When a connection overflows: only past the bound's worth of different pending objects. */
module ReplicationOverflow {
  import opened Base
  import opened CoalescingQueues
  import opened Frames
  import opened Replication
  import opened ReplicationProof

  function PendingKeys(s: State): set<SlotKey<Uid>> {
    set slot | slot in s.queue :: slot.key
  }

  /** In every state the queue holds one slot per key, and no more than the bound. */
  ghost predicate Bounded(c: Conf, s: State) {
    && Distinct(s.queue) && |s.queue| <= c.maxsize
    && forall slot :: slot in s.queue && slot.key.Auto? ==> slot.key.n < s.seqNo
  }

  lemma PlacedBounded(c: Conf, s: State, slot: Slot<Uid, Message>, next: nat)
    requires Bounded(c, s) && Accepts(s.queue, slot.key, c.maxsize)
    requires s.seqNo <= next && (slot.key.Auto? ==> slot.key.n < next)
    ensures Bounded(c, s.(queue := Placed(s.queue, slot), seqNo := next))
  {
    PlacedEffect(s.queue, slot);
    if Pending(s.queue, slot.key) {
      var i :| 0 <= i < |s.queue| && s.queue[i].key == slot.key;
      PlacedAt(s.queue, slot, i);
    } else {
      PlacedAt(s.queue, slot, |s.queue|);
    }
  }

  lemma BroadcastBounded(c: Conf, s: State, s': State, i: nat)
    requires Bounded(c, s) && Broadcast(c, s, s', i)
    ensures Bounded(c, s')
  {
    var bd := s.outbox[i];
    var msg := MessageFor(c.viewer, bd);
    if msg.Some? && Accepts(s.queue, Of(bd.uid), c.maxsize) {
      PlacedBounded(c, s, Slot(Of(bd.uid), Object(Frame(bd.uid, msg.value))), s.seqNo);
    }
  }

  lemma CallJudgeBounded(c: Conf, s: State, s': State)
    requires Bounded(c, s) && CallJudge(c, s, s')
    ensures Bounded(c, s')
  {
    if Accepts(s.queue, Auto(s.seqNo), c.maxsize) {
      PlacedBounded(c, s, Slot(Auto(s.seqNo), JudgeCall), s.seqNo + 1);
    }
  }

  lemma RelayBounded(c: Conf, s: State, s': State)
    requires Bounded(c, s) && Relay(s, s')
    ensures Bounded(c, s')
  {
  }

  /** Only a broadcast or a judge call puts a message into the queue, or closes the connection. */
  lemma OtherStepsOnlyTake(c: Conf, s: State, s': State)
    requires Next(c, s, s')
    ensures || (exists i :: Broadcast(c, s, s', i))
            || CallJudge(c, s, s')
            || ((s'.closed ==> s.closed)
                && (Relay(s, s') || s'.queue == [] || (s'.queue == s.queue && s'.seqNo == s.seqNo)))
  {
    if written, news :| Commit(c, s, s', written, news) {
    } else if i :| Broadcast(c, s, s', i) {
    } else if i :| Answer(c, s, s', i) {
    } else if CallJudge(c, s, s') || Connect(c, s, s') || Disconnect(s, s') || Relay(s, s') {
    } else if page, frames :| FetchBatch(c, s, s', page, frames) {
    } else {
      var frames :| EmitOverlay(c, s, s', frames);
    }
  }

  lemma StepBounded(c: Conf, s: State, s': State)
    requires Bounded(c, s) && Next(c, s, s')
    ensures Bounded(c, s')
  {
    OtherStepsOnlyTake(c, s, s');
    if i :| Broadcast(c, s, s', i) {
      BroadcastBounded(c, s, s', i);
    } else if CallJudge(c, s, s') {
      CallJudgeBounded(c, s, s');
    } else if Relay(s, s') {
      RelayBounded(c, s, s');
    }
  }

  lemma {:induction false} RunBounded(c: Conf, run: seq<State>, n: nat)
    requires IsRun(c, run) && n < |run|
    ensures Bounded(c, run[n])
    decreases n
  {
    if n > 0 {
      RunBounded(c, run, n - 1);
      assert Next(c, run[n - 1], run[n - 1 + 1]);
      StepBounded(c, run[n - 1], run[n]);
    }
  }

  /** Broadcasting a save about which an open connection still holds a frame never closes it,
      however full its queue, and leaves the same keys pending in the same places. */
  lemma PendingObjectNeverOverflows(c: Conf, run: seq<State>, n: nat, i: nat)
    requires IsRun(c, run) && n + 1 < |run| && Broadcast(c, run[n], run[n + 1], i)
    requires !run[n].closed && Of(run[n].outbox[i].uid) in PendingKeys(run[n])
    ensures !run[n + 1].closed && Keys(run[n + 1].queue) == Keys(run[n].queue)
  {
    var s, bd := run[n], run[n].outbox[i];
    var slot :| slot in s.queue && slot.key == Of(bd.uid);
    var at :| 0 <= at < |s.queue| && s.queue[at] == slot;
    assert Pending(s.queue, Of(bd.uid));
    RunBounded(c, run, n);
    var msg := MessageFor(c.viewer, bd);
    if msg.Some? {
      PlacedAt(s.queue, Slot(Of(bd.uid), Object(Frame(bd.uid, msg.value))), at);
    }
  }

  lemma RefusedIsPastTheBound(c: Conf, s: State, key: SlotKey<Uid>)
    requires Bounded(c, s) && !Accepts(s.queue, key, c.maxsize)
    ensures |PendingKeys(s)| == c.maxsize && key !in PendingKeys(s)
  {
    KeysAreSlots(s.queue);
  }

  /** A connection is closed by an overflow only with as many different keys pending as the
      bound allows, and by a message under yet another key: a save of an object none of whose
      frames is pending, or a judge call. */
  lemma OverflowIsPastTheBound(c: Conf, run: seq<State>, n: nat)
    requires IsRun(c, run) && n + 1 < |run|
    requires !run[n].closed && run[n + 1].closed
    ensures |PendingKeys(run[n])| == c.maxsize
    ensures || CallJudge(c, run[n], run[n + 1])
            || exists i :: 0 <= i < |run[n].outbox| && Of(run[n].outbox[i].uid) !in PendingKeys(run[n])
                           && Broadcast(c, run[n], run[n + 1], i)
  {
    var s, s' := run[n], run[n + 1];
    RunBounded(c, run, n);
    assert Next(c, run[n], run[n + 1]);
    OtherStepsOnlyTake(c, s, s');
    if i :| 0 <= i < |s.outbox| && Broadcast(c, s, s', i) {
      RefusedIsPastTheBound(c, s, Of(s.outbox[i].uid));
    } else {
      RefusedIsPastTheBound(c, s, Auto(s.seqNo));
    }
  }
}

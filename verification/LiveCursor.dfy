/** Reconnecting: which cursors a client may come back with after a live connection. */
module LiveCursor {
  import opened Base
  import opened AccessLevels
  import opened Entitlement
  import opened Frames
  import opened KeysetPaging
  import opened CoalescingQueues
  import opened Replication
  import opened ReplicationProof
  import opened SyncCursor

  // ---- Nothing unknown is shown or queued -------------------------------------------

  /** The client shows, and the queue holds, only objects of the table. */
  ghost predicate Known(s: State) {
    && (forall u :: u in s.store ==> u in s.table)
    && (forall slot :: slot in s.queue && slot.key.Of? ==> slot.key.k in s.table)
  }

  lemma AppliedKnown(store: Store, frames: seq<Frame>, table: Table)
    requires forall u :: u in store ==> u in table
    requires forall f :: f in frames ==> f.uid in table
    ensures forall u :: u in ApplyAll(store, frames) ==> u in table
  {
    forall u | u in ApplyAll(store, frames) ensures u in table {
      StoreFollowsLastFrame(store, frames, u);
      LastForOccurs(frames, u);
    }
  }

  lemma PlacedKnown(s: State, s': State, slot: Slot<Uid, Message>)
    requires Known(s) && Distinct(s.queue) && (slot.key.Of? ==> slot.key.k in s.table)
    requires s'.table == s.table && s'.store == s.store && s'.queue == Placed(s.queue, slot)
    ensures Known(s')
  {
    PlacedEffect(s.queue, slot);
  }

  lemma BroadcastKnown(c: Conf, s: State, s': State, i: nat)
    requires Inv(c, s) && Known(s) && Broadcast(c, s, s', i)
    ensures Known(s')
  {
    if s'.queue != s.queue {
      var bd := s.outbox[i];
      PlacedKnown(s, s', Slot(Of(bd.uid), Object(Frame(bd.uid, MessageFor(c.viewer, bd).value))));
    }
  }

  lemma AnswerKnown(c: Conf, s: State, s': State, i: nat)
    requires Inv(c, s) && Known(s) && Answer(c, s, s', i)
    ensures Known(s')
  {
    assert s.outbox[i].uid in s.table;
  }

  lemma CommitKnown(c: Conf, s: State, s': State, written: map<Uid, Row>, news: seq<BroadcastData>)
    requires Known(s) && Commit(c, s, s', written, news)
    ensures Known(s')
  {
  }

  lemma ConnectKnown(c: Conf, s: State, s': State)
    requires Known(s) && Connect(c, s, s')
    ensures Known(s')
  {
  }

  lemma CallJudgeKnown(c: Conf, s: State, s': State)
    requires Inv(c, s) && Known(s) && CallJudge(c, s, s')
    ensures Known(s')
  {
    if s'.queue != s.queue {
      PlacedKnown(s, s', Slot(Auto(s.seqNo), JudgeCall));
    }
  }

  lemma FetchKnown(c: Conf, s: State, s': State, page: seq<Uid>, frames: seq<Frame>)
    requires Known(s) && FetchBatch(c, s, s', page, frames)
    ensures Known(s')
  {
    AppliedKnown(s.store, frames, s.table);
  }

  lemma OverlayKnown(c: Conf, s: State, s': State, frames: seq<Frame>)
    requires Known(s) && EmitOverlay(c, s, s', frames)
    ensures Known(s')
  {
    AppliedKnown(s.store, frames, s.table);
  }

  lemma RelayKnown(c: Conf, s: State, s': State)
    requires Inv(c, s) && Known(s) && Relay(s, s')
    ensures Known(s')
  {
    assert QueueSlotOk(c, s, s.queue[0]) && s.queue[0] in s.queue;
    assert forall slot :: slot in s'.queue ==> slot in s.queue;
  }

  lemma StepKnown(c: Conf, s: State, s': State)
    requires Inv(c, s) && Known(s) && Next(c, s, s')
    ensures Known(s')
  {
    if written, news :| Commit(c, s, s', written, news) {
      CommitKnown(c, s, s', written, news);
    } else if i :| Broadcast(c, s, s', i) {
      BroadcastKnown(c, s, s', i);
    } else if i :| Answer(c, s, s', i) {
      AnswerKnown(c, s, s', i);
    } else if CallJudge(c, s, s') {
      CallJudgeKnown(c, s, s');
    } else if Connect(c, s, s') {
      ConnectKnown(c, s, s');
    } else if Disconnect(s, s') {
    } else if page, frames :| FetchBatch(c, s, s', page, frames) {
      FetchKnown(c, s, s', page, frames);
    } else if frames :| EmitOverlay(c, s, s', frames) {
      OverlayKnown(c, s, s', frames);
    } else {
      RelayKnown(c, s, s');
    }
  }

  lemma {:induction false} RunKnown(c: Conf, run: seq<State>, n: nat)
    requires Enrolled(c.viewer, map[]) && IsRun(c, run) && n < |run|
    ensures Known(run[n])
    decreases n
  {
    if n > 0 {
      RunKnown(c, run, n - 1);
      RunKeeps(c, run, n - 1);
      assert Next(c, run[n - 1], run[n - 1 + 1]);
      StepKnown(c, run[n - 1], run[n]);
    }
  }

  // ---- The cursor of a live connection ----------------------------------------------

  /** The store would answer for the object under the cursor. */
  predicate Settled(c: Conf, store: Store, table: Table, since: Option<nat>, u: Uid)
    requires u in table
  {
    if After(since, table[u]) then Streams(BaseLevel(c), table[u]) || u !in store
    else Get(store, u) == ShownColumn(Column(table[u], BaseLevel(c)))
         || Get(store, u) == ShownColumn(Column(table[u], c.ent(u)))
  }

  lemma HonestIsSettled(c: Conf, store: Store, table: Table, since: Option<nat>)
    requires forall u :: u in store ==> u in table
    ensures Honest(c, store, table, since) <==> forall u :: u in table ==> Settled(c, store, table, since, u)
  {
  }

  /** Caught up, whatever is not on its way is settled under any cursor. */
  lemma ArrivedIsSettled(c: Conf, s: State, since: Option<nat>, u: Uid)
    requires Inv(c, s) && Draining(s) && u in s.table && !OnItsWay(c, s, u)
    ensures Settled(c, s.store, s.table, since, u)
  {
    assert Accounted(c, s, u) && Right(c, s, u);
    EntitledShape(c.viewer, s.table, u);
  }

  /** Exactly which cursors a caught-up client may reconnect with: those under which every
      object still in the outbox or the queue is settled, that is, already shown right or
      stamped past the cursor. */
  lemma LiveCursorIsHonestIff(c: Conf, run: seq<State>, since: Option<nat>)
    requires Enrolled(c.viewer, map[]) && IsRun(c, run) && Draining(run[|run| - 1])
    ensures var s := run[|run| - 1];
            Honest(c, s.store, s.table, since) <==>
              forall u :: u in s.table && OnItsWay(c, s, u) ==> Settled(c, s.store, s.table, since, u)
  {
    var s := run[|run| - 1];
    RunKeeps(c, run, |run| - 1);
    RunKnown(c, run, |run| - 1);
    HonestIsSettled(c, s.store, s.table, since);
    forall u | u in s.table && !OnItsWay(c, s, u) ensures Settled(c, s.store, s.table, since, u) {
      ArrivedIsSettled(c, s, since, u);
    }
  }

  /** At rest every cursor will do. */
  lemma RestIsHonest(c: Conf, run: seq<State>, since: Option<nat>)
    requires Enrolled(c.viewer, map[]) && IsRun(c, run) && AtRest(run[|run| - 1])
    ensures Honest(c, run[|run| - 1].store, run[|run| - 1].table, since)
  {
    LiveCursorIsHonestIff(c, run, since);
  }

  /** A cursor that was good when the connection ended is good whenever the client comes
      back, above the public level: later writes are stamped past it. */
  lemma HonestUntilReconnect(c: Conf, store: Store, table: Table, later: Table, clock: nat, since: Option<nat>)
    requires BaseLevel(c) != Public && Honest(c, store, table, since)
    requires (since.Some? ==> since.value <= clock) && Later(table, later, clock)
    requires forall u :: u in later ==> Sound(later[u])
    ensures Honest(c, store, later, since)
  {
    forall u | u in later ensures Streams(BaseLevel(c), later[u]) {
      StreamedAbovePublic(BaseLevel(c), later[u]);
    }
  }

  /** The newest `ts` applied is not such a cursor when a message replaced in place was
      relayed from its old position past an object saved before it: the cursor then passes a
      version still queued. */
  lemma ReplacedInPlaceOvertakes(c: Conf, s: State, s': State, a: Uid, b: Uid)
    requires Relay(s, s') && a in s.table && b in s.table && a != b
    requires s.queue[0].key == Of(a) && s.queue[0].msg.Object? && s.queue[0].msg.frame.uid == a
    requires s.table[b].stamp <= s.table[a].stamp && InQueue(s, b)
    requires Get(s.store, b) != ShownColumn(Column(s.table[b], BaseLevel(c)))
    requires Get(s.store, b) != ShownColumn(Column(s.table[b], c.ent(b)))
    ensures InQueue(s', b) && !Honest(c, s'.store, s'.table, Some(s.table[a].stamp))
  {
    var i :| 0 <= i < |s.queue| && s.queue[i].key == Of(b);
    assert s'.queue[i - 1] == s.queue[i];
    assert Get(s'.store, b) == Get(s.store, b);
  }
}

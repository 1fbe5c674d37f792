/** Every step of the protocol keeps the invariant; at rest the client holds the table. */
module ReplicationProof {
  import opened Base
  import opened AccessLevels
  import opened Entitlement
  import opened Frames
  import opened KeysetPaging
  import opened PullPush
  import opened CoalescingQueues
  import opened Replication

  // ---- Commit -----------------------------------------------------------------------

  lemma CommitTable(c: Conf, s: State, s': State, written: map<Uid, Row>, news: seq<BroadcastData>)
    requires TableInv(c, s) && Commit(c, s, s', written, news)
    ensures TableInv(c, s')
  {
    forall u | u in s'.table ensures Sound(s'.table[u]) && s'.table[u].stamp <= s'.clock {
      if u in written {
        SavedIsSound(written[u]);
      }
    }
  }

  /** A write's frame shows the new row; a write without one leaves a row nobody was shown. */
  lemma WriteMessage(c: Conf, before: Table, after: Table, u: Uid)
    requires Enrolled(c.viewer, after) && u in after && RowLevel(c.viewer, after, u, after[u]) == c.ent(u)
    ensures var msg := MessageFor(c.viewer, SaveObject(before, after, u));
            if msg.Some? then Shown(msg.value) == Expected(c, after, u)
            else
              && Expected(c, after, u).None? && Expected(c, before, u).None?
              && c.ent(u) == BaseLevel(c) != Full && Column(after[u], BaseLevel(c)).None?
              && (u in before ==> Column(before[u], BaseLevel(c)).None?)
  {
    var bd := SaveObject(before, after, u);
    assert BroadcastLevel(c.viewer, bd) == c.ent(u);
    EntitledShape(c.viewer, after, u);
  }

  lemma CommitOutgoing(c: Conf, s: State, s': State, written: map<Uid, Row>, news: seq<BroadcastData>, u: Uid)
    requires Commit(c, s, s', written, news)
    ensures u !in written ==> Outgoing(c.viewer, s'.outbox, u) == Outgoing(c.viewer, s.outbox, u)
    ensures u in written ==>
              var msg := MessageFor(c.viewer, SaveObject(s.table, s'.table, u));
              Outgoing(c.viewer, s'.outbox, u) == if msg.Some? then msg else Outgoing(c.viewer, s.outbox, u)
  {
    OutgoingAppend(c.viewer, s.outbox, news, u);
    if u in written {
      var i :| 0 <= i < |news| && news[i].uid == u;
      OutgoingNews(c.viewer, news, i);
    } else {
      OutgoingNone(c.viewer, news, u);
    }
  }

  lemma CommitLeaves(c: Conf, s: State, s': State, written: map<Uid, Row>, news: seq<BroadcastData>, u: Uid)
    requires Commit(c, s, s', written, news)
    ensures u in written ==> u in s'.table
    ensures u !in written ==> Expected(c, s'.table, u) == Expected(c, s.table, u)
  {
  }

  /** What the outbox will say about an object, once a write has had its say or none. */
  lemma OutgoingShows(c: Conf, s: State, s': State, u: Uid, wrote: bool)
    requires Entitled(c, s'.table) && OutboxInv(c, s)
    requires wrote ==> u in s'.table
    requires !wrote ==> Expected(c, s'.table, u) == Expected(c, s.table, u)
    requires !wrote ==> Outgoing(c.viewer, s'.outbox, u) == Outgoing(c.viewer, s.outbox, u)
    requires wrote ==>
               var msg := MessageFor(c.viewer, SaveObject(s.table, s'.table, u));
               Outgoing(c.viewer, s'.outbox, u) == if msg.Some? then msg else Outgoing(c.viewer, s.outbox, u)
    ensures var before, after := Outgoing(c.viewer, s.outbox, u), Outgoing(c.viewer, s'.outbox, u);
            if after.Some? then Shown(after.value) == Expected(c, s'.table, u)
            else before.None? && Expected(c, s'.table, u) == Expected(c, s.table, u)
  {
    if wrote {
      WriteMessage(c, s.table, s'.table, u);
    }
  }

  lemma CommitShows(c: Conf, s: State, s': State, written: map<Uid, Row>, news: seq<BroadcastData>, u: Uid)
    requires Entitled(c, s'.table) && OutboxInv(c, s) && Commit(c, s, s', written, news)
    ensures var before, after := Outgoing(c.viewer, s.outbox, u), Outgoing(c.viewer, s'.outbox, u);
            if after.Some? then Shown(after.value) == Expected(c, s'.table, u)
            else before.None? && Expected(c, s'.table, u) == Expected(c, s.table, u)
  {
    CommitOutgoing(c, s, s', written, news, u);
    CommitLeaves(c, s, s', written, news, u);
    OutgoingShows(c, s, s', u, u in written);
  }

  lemma CommitOutbox(c: Conf, s: State, s': State, written: map<Uid, Row>, news: seq<BroadcastData>)
    requires Entitled(c, s'.table) && OutboxInv(c, s) && Commit(c, s, s', written, news)
    ensures OutboxInv(c, s')
  {
    forall u | Outgoing(c.viewer, s'.outbox, u).Some?
      ensures Shown(Outgoing(c.viewer, s'.outbox, u).value) == Expected(c, s'.table, u)
    {
      CommitShows(c, s, s', written, news, u);
    }
  }

  lemma CommitQueue(c: Conf, s: State, s': State, written: map<Uid, Row>, news: seq<BroadcastData>)
    requires Entitled(c, s'.table) && OutboxInv(c, s) && QueueInv(c, s)
    requires Commit(c, s, s', written, news)
    ensures QueueInv(c, s')
  {
    forall i | 0 <= i < |s.queue| ensures QueueSlotOk(c, s', s.queue[i]) {
      assert QueueSlotOk(c, s, s.queue[i]);
      if s.queue[i].key.Of? {
        CommitShows(c, s, s', written, news, s.queue[i].key.k);
      }
    }
  }

  /** A write the viewer is sent nothing about: they see nothing before it and after it. */
  lemma SilentlyAccounted(c: Conf, s: State, s': State, u: Uid)
    requires s' == s.(table := s'.table, clock := s'.clock, outbox := s'.outbox)
    requires PhaseInv(c, s) && Accounted(c, s, u) && u in s'.table && s.clock < s'.table[u].stamp
    requires Outgoing(c.viewer, s'.outbox, u) == Outgoing(c.viewer, s.outbox, u)
    requires Expected(c, s'.table, u).None? && Expected(c, s.table, u).None? && c.ent(u) != Full
    requires u in s.table ==> s'.table[u].ty == s.table[u].ty && Column(s.table[u], BaseLevel(c)).None?
    ensures Accounted(c, s', u)
  {
    if WillStream(c, s, u) {
      assert Retracts(BaseLevel(c), s.table[u].ty);
      assert WillStream(c, s', u);
    }
  }

  lemma WrittenAccounted(c: Conf, s: State, s': State, written: map<Uid, Row>, news: seq<BroadcastData>, u: Uid)
    requires Entitled(c, s'.table) && OutboxInv(c, s) && PhaseInv(c, s)
    requires Commit(c, s, s', written, news) && u in written && Accounted(c, s, u)
    ensures Accounted(c, s', u)
  {
    CommitOutgoing(c, s, s', written, news, u);
    WriteMessage(c, s.table, s'.table, u);
    if MessageFor(c.viewer, SaveObject(s.table, s'.table, u)).None? {
      SilentlyAccounted(c, s, s', u);
    }
  }

  /** A commit that leaves a row alone leaves alone how it is accounted for. */
  lemma UntouchedAccounted(c: Conf, s: State, s': State, u: Uid)
    requires s' == s.(table := s'.table, clock := s'.clock, outbox := s'.outbox)
    requires (u in s'.table <==> u in s.table) && (u in s.table ==> s'.table[u] == s.table[u])
    requires Outgoing(c.viewer, s'.outbox, u) == Outgoing(c.viewer, s.outbox, u)
    requires PhaseInv(c, s) && Accounted(c, s, u)
    ensures Accounted(c, s', u)
  {
    if NeedsOverlay(c, s, u) && NotYetSelected(c, s, u) && s.phase.Overlay? {
      forall q | QueryIndex(q) < s.phase.next ensures !Selects(q, c.viewer.value, s'.table, u) {
        assert q != Organized;
        assert !Selects(q, c.viewer.value, s.table, u);
      }
    }
  }

  lemma UnwrittenAccounted(c: Conf, s: State, s': State, written: map<Uid, Row>, news: seq<BroadcastData>, u: Uid)
    requires PhaseInv(c, s)
    requires Commit(c, s, s', written, news) && u !in written && Accounted(c, s, u)
    ensures Accounted(c, s', u)
  {
    CommitOutgoing(c, s, s', written, news, u);
    UntouchedAccounted(c, s, s', u);
  }

  lemma CommitKeeps(c: Conf, s: State, s': State, written: map<Uid, Row>, news: seq<BroadcastData>)
    requires Inv(c, s) && Commit(c, s, s', written, news)
    ensures Inv(c, s')
  {
    CommitTable(c, s, s', written, news);
    CommitOutbox(c, s, s', written, news);
    if !s.phase.Offline? && !s.closed {
      CommitQueue(c, s, s', written, news);
      forall u ensures Accounted(c, s', u) {
        assert Accounted(c, s, u);
        if u in written {
          WrittenAccounted(c, s, s', written, news, u);
        } else {
          UnwrittenAccounted(c, s, s', written, news, u);
        }
      }
    }
  }

  // ---- Broadcast --------------------------------------------------------------------

  lemma WithoutOutbox(c: Conf, s: State, s': State, i: nat)
    requires OutboxInv(c, s) && i < |s.outbox| && forall j :: 0 <= j < i ==> s.outbox[j].uid != s.outbox[i].uid
    requires s'.table == s.table && s'.outbox == Replication.Without(s.outbox, i)
    ensures OutboxInv(c, s')
  {
    forall u | Outgoing(c.viewer, s'.outbox, u).Some?
      ensures Shown(Outgoing(c.viewer, s'.outbox, u).value) == Expected(c, s'.table, u)
    {
      OutgoingWithout(c.viewer, s.outbox, i, u);
    }
  }

  lemma ReplacedEffect<M>(queue: seq<Slot<Uid, M>>, slot: Slot<Uid, M>, i: nat)
    requires Distinct(queue) && i < |queue| && queue[i].key == slot.key
    ensures Distinct(queue[i := slot]) && slot in queue[i := slot]
    ensures forall x :: x in queue[i := slot] ==> x == slot || (x in queue && x.key != slot.key)
    ensures forall x :: x in queue && x.key != slot.key ==> x in queue[i := slot]
  {
    var placed := queue[i := slot];
    assert placed[i] == slot;
    forall x | x in queue && x.key != slot.key ensures x in placed {
      var j :| 0 <= j < |queue| && queue[j] == x;
      assert placed[j] == x;
    }
  }

  /** Placing a message changes the queue at its own key only. */
  lemma PlacedEffect<M>(queue: seq<Slot<Uid, M>>, slot: Slot<Uid, M>)
    requires Distinct(queue)
    ensures Distinct(Placed(queue, slot)) && slot in Placed(queue, slot)
    ensures forall x :: x in Placed(queue, slot) ==> x == slot || (x in queue && x.key != slot.key)
    ensures forall x :: x in queue && x.key != slot.key ==> x in Placed(queue, slot)
  {
    if Pending(queue, slot.key) {
      var i :| 0 <= i < |queue| && queue[i].key == slot.key;
      PlacedAt(queue, slot, i);
      ReplacedEffect(queue, slot, i);
    } else {
      PlacedAt(queue, slot, |queue|);
    }
  }

  lemma BroadcastQueue(c: Conf, s: State, s': State, i: nat)
    requires OutboxInv(c, s) && QueueInv(c, s) && Broadcast(c, s, s', i) && !s'.closed && !s.phase.Offline?
    ensures QueueInv(c, s')
  {
    var bd := s.outbox[i];
    var msg := MessageFor(c.viewer, bd);
    if msg.Some? && !s.closed {
      var slot := Slot(Of(bd.uid), Object(Frame(bd.uid, msg.value)));
      PlacedEffect(s.queue, slot);
      forall j | 0 <= j < |s'.queue|
        ensures QueueSlotOk(c, s', s'.queue[j])
      {
        var x := s'.queue[j];
        assert x in s'.queue;
        if x == slot {
          OutgoingWithout(c.viewer, s.outbox, i, bd.uid);
        } else if x.key.Of? {
          OutgoingWithout(c.viewer, s.outbox, i, x.key.k);
        }
      }
    } else {
      forall j | 0 <= j < |s.queue| && s.queue[j].key.Of?
        ensures Outgoing(c.viewer, s'.outbox, s.queue[j].key.k) == Outgoing(c.viewer, s.outbox, s.queue[j].key.k)
      {
        OutgoingWithout(c.viewer, s.outbox, i, s.queue[j].key.k);
      }
    }
  }

  /** Queuing under another key keeps an object's frame queued. */
  lemma StillQueued(s: State, s': State, slot: Slot<Uid, Message>, u: Uid)
    requires Distinct(s.queue) && s'.queue == Placed(s.queue, slot) && slot.key != Of(u) && InQueue(s, u)
    ensures InQueue(s', u)
  {
    PlacedEffect(s.queue, slot);
    var j :| 0 <= j < |s.queue| && s.queue[j].key == Of(u);
    assert s.queue[j] in s'.queue;
    var k :| 0 <= k < |s'.queue| && s'.queue[k] == s.queue[j];
    assert s'.queue[k].key == Of(u);
  }

  lemma BroadcastAccounted(c: Conf, s: State, s': State, i: nat, u: Uid)
    requires Accounted(c, s, u) && QueueInv(c, s) && Broadcast(c, s, s', i) && !s'.closed && !s.phase.Offline?
    ensures Accounted(c, s', u)
  {
    var bd := s.outbox[i];
    var msg := MessageFor(c.viewer, bd);
    OutgoingWithout(c.viewer, s.outbox, i, u);
    if msg.Some? && !s.closed {
      var slot := Slot(Of(bd.uid), Object(Frame(bd.uid, msg.value)));
      PlacedEffect(s.queue, slot);
      if u == bd.uid {
        var j :| 0 <= j < |s'.queue| && s'.queue[j] == slot;
        assert InQueue(s', u);
      } else if InQueue(s, u) {
        StillQueued(s, s', slot, u);
      }
    }
  }

  lemma BroadcastKeeps(c: Conf, s: State, s': State, i: nat)
    requires Inv(c, s) && Broadcast(c, s, s', i)
    ensures Inv(c, s')
  {
    WithoutOutbox(c, s, s', i);
    if !s.phase.Offline? && !s'.closed {
      BroadcastQueue(c, s, s', i);
      forall u ensures Accounted(c, s', u) {
        BroadcastAccounted(c, s, s', i, u);
      }
    }
  }

  lemma AnswerQueue(c: Conf, s: State, s': State, i: nat)
    requires QueueInv(c, s) && Answer(c, s, s', i)
    ensures QueueInv(c, s')
  {
    forall j | 0 <= j < |s.queue| ensures QueueSlotOk(c, s', s.queue[j]) {
      assert QueueSlotOk(c, s, s.queue[j]);
      if s.queue[j].key.Of? {
        OutgoingWithout(c.viewer, s.outbox, i, s.queue[j].key.k);
      }
    }
  }

  lemma AnswerAccounted(c: Conf, s: State, s': State, i: nat, u: Uid)
    requires OutboxInv(c, s) && Accounted(c, s, u) && Answer(c, s, s', i)
    ensures Accounted(c, s', u)
  {
    OutgoingWithout(c.viewer, s.outbox, i, u);
    if u == s.outbox[i].uid {
      assert Get(s'.store, u) == Shown(MessageFor(c.viewer, s.outbox[i]).value);
    } else {
      assert Get(s'.store, u) == Get(s.store, u);
    }
  }

  lemma AnswerKeeps(c: Conf, s: State, s': State, i: nat)
    requires Inv(c, s) && Answer(c, s, s', i)
    ensures Inv(c, s')
  {
    WithoutOutbox(c, s, s', i);
    AnswerQueue(c, s, s', i);
    forall u ensures Accounted(c, s', u) {
      AnswerAccounted(c, s, s', i, u);
    }
  }

  lemma CallJudgeQueue(c: Conf, s: State, s': State)
    requires QueueInv(c, s) && CallJudge(c, s, s') && !s'.closed
    ensures QueueInv(c, s')
  {
    var slot: Slot<Uid, Message> := Slot(Auto(s.seqNo), JudgeCall);
    PlacedEffect(s.queue, slot);
    forall j | 0 <= j < |s'.queue| ensures QueueSlotOk(c, s', s'.queue[j]) {
      assert s'.queue[j] in s'.queue;
    }
  }

  lemma CallJudgeKeeps(c: Conf, s: State, s': State)
    requires Inv(c, s) && CallJudge(c, s, s')
    ensures Inv(c, s')
  {
    if !s'.closed {
      CallJudgeQueue(c, s, s');
      forall u ensures Accounted(c, s', u) {
        assert Accounted(c, s, u);
        if InQueue(s, u) {
          StillQueued(s, s', Slot(Auto(s.seqNo), JudgeCall), u);
        }
      }
    }
  }

  // ---- Catch-up and drain -----------------------------------------------------------

  lemma ConnectKeeps(c: Conf, s: State, s': State)
    requires Inv(c, s) && Connect(c, s, s')
    ensures Inv(c, s')
  {
    forall u ensures Accounted(c, s', u) {
      if u in s.table {
        EntitledShape(c.viewer, s.table, u);
      }
    }
  }

  /** After frames that all say the same about an object, the store shows what they say. */
  lemma StoreAfter(store: Store, frames: seq<Frame>, u: Uid, payload: Dict)
    requires forall f :: f in frames && f.uid == u ==> f.payload == payload
    ensures Get(ApplyAll(store, frames), u)
         == if (exists f :: f in frames && f.uid == u) then Shown(payload) else Get(store, u)
  {
    StoreFollowsLastFrame(store, frames, u);
    LastForOccurs(frames, u);
  }

  lemma FetchedAccounted(c: Conf, s: State, s': State, page: seq<Uid>, frames: seq<Frame>, u: Uid)
    requires Enrolled(c.viewer, s.table) && u in s.table && Sound(s.table[u])
    requires RowLevel(c.viewer, s.table, u, s.table[u]) == c.ent(u)
    requires FetchBatch(c, s, s', page, frames) && u in page && Accounted(c, s, u)
    ensures Accounted(c, s', u)
  {
    var i :| 0 <= i < |page| && page[i] == u;
    assert frames[i] in frames;
    StoreAfter(s.store, frames, u, StreamedPayload(BaseLevel(c), u, s.table[u]));
    EntitledShape(c.viewer, s.table, u);
    assert Get(s'.store, u) == ShownColumn(Column(s.table[u], BaseLevel(c)));
  }

  lemma UnfetchedAccounted(c: Conf, s: State, s': State, page: seq<Uid>, frames: seq<Frame>, u: Uid)
    requires FetchBatch(c, s, s', page, frames) && u !in page && Accounted(c, s, u)
    ensures Accounted(c, s', u)
  {
    StoreAfter(s.store, frames, u, map[]);
    assert Get(s'.store, u) == Get(s.store, u);
  }

  lemma FetchKeeps(c: Conf, s: State, s': State, page: seq<Uid>, frames: seq<Frame>)
    requires Inv(c, s) && FetchBatch(c, s, s', page, frames)
    ensures Inv(c, s')
  {
    if page != [] {
      assert page[|page| - 1] in page;
    }
    if !s.closed {
      forall u ensures Accounted(c, s', u) {
        assert Accounted(c, s, u);
        if u in page {
          FetchedAccounted(c, s, s', page, frames, u);
        } else {
          UnfetchedAccounted(c, s, s', page, frames, u);
        }
      }
    }
  }

  lemma SelectedAccounted(c: Conf, s: State, s': State, frames: seq<Frame>, u: Uid)
    requires EmitOverlay(c, s, s', frames) && HasOverlay(c.viewer)
    requires Selects(OVERLAY_QUERIES[s.phase.next], c.viewer.value, s.table, u)
    requires RowLevel(c.viewer, s.table, u, s.table[u]) == c.ent(u)
    ensures Right(c, s', u)
  {
    OverlayIsEntitled(c.viewer.value, s.table, u, OVERLAY_QUERIES[s.phase.next]);
    assert Frame(u, s.table[u].full) in frames;
    StoreAfter(s.store, frames, u, s.table[u].full);
  }

  lemma UnselectedAccounted(c: Conf, s: State, s': State, frames: seq<Frame>, u: Uid)
    requires EmitOverlay(c, s, s', frames) && HasOverlay(c.viewer) && Accounted(c, s, u)
    requires !Selects(OVERLAY_QUERIES[s.phase.next], c.viewer.value, s.table, u)
    requires u in s.table ==> Sound(s.table[u]) && HasEvent(s.table, s.table[u])
                              && RowLevel(c.viewer, s.table, u, s.table[u]) == c.ent(u)
    ensures Accounted(c, s', u)
  {
    StoreAfter(s.store, frames, u, map[]);
    if NeedsOverlay(c, s, u) && NotYetSelected(c, s, u) {
      forall q | QueryIndex(q) <= s.phase.next ensures !Selects(q, c.viewer.value, s.table, u) {
        assert QueryIndex(q) < s.phase.next || q == OVERLAY_QUERIES[s.phase.next];
      }
      if s.phase.next == 5 {
        OverlayCovers(c.viewer.value, s.table, u);
        assert false;
      }
    }
  }

  lemma OverlayKeeps(c: Conf, s: State, s': State, frames: seq<Frame>)
    requires Inv(c, s) && EmitOverlay(c, s, s', frames)
    ensures Inv(c, s')
  {
    if !s.closed {
      forall u ensures Accounted(c, s', u) {
        assert Accounted(c, s, u);
        if Selects(OVERLAY_QUERIES[s.phase.next], c.viewer.value, s.table, u) {
          SelectedAccounted(c, s, s', frames, u);
        } else {
          UnselectedAccounted(c, s, s', frames, u);
        }
      }
    }
  }

  lemma RelayAccounted(c: Conf, s: State, s': State, u: Uid)
    requires Inv(c, s) && Relay(s, s')
    ensures Accounted(c, s', u)
  {
    assert Accounted(c, s, u);
    if InQueue(s, u) {
      var i :| 0 <= i < |s.queue| && s.queue[i].key == Of(u);
      if 0 < i {
        assert s'.queue[i - 1] == s.queue[i];
        assert InQueue(s', u);
      }
    }
  }

  lemma RelayKeeps(c: Conf, s: State, s': State)
    requires Inv(c, s) && Relay(s, s')
    ensures Inv(c, s')
  {
    forall u ensures Accounted(c, s', u) {
      RelayAccounted(c, s, s', u);
    }
  }

  // ---- The theorem ------------------------------------------------------------------

  lemma StepKeeps(c: Conf, s: State, s': State)
    requires Inv(c, s) && Next(c, s, s')
    ensures Inv(c, s')
  {
    if written, news :| Commit(c, s, s', written, news) {
      CommitKeeps(c, s, s', written, news);
    } else if i :| Broadcast(c, s, s', i) {
      BroadcastKeeps(c, s, s', i);
    } else if i :| Answer(c, s, s', i) {
      AnswerKeeps(c, s, s', i);
    } else if CallJudge(c, s, s') {
      CallJudgeKeeps(c, s, s');
    } else if Connect(c, s, s') {
      ConnectKeeps(c, s, s');
    } else if Disconnect(s, s') {
    } else if page, frames :| FetchBatch(c, s, s', page, frames) {
      FetchKeeps(c, s, s', page, frames);
    } else if frames :| EmitOverlay(c, s, s', frames) {
      OverlayKeeps(c, s, s', frames);
    } else {
      RelayKeeps(c, s, s');
    }
  }

  lemma {:induction false} RunKeeps(c: Conf, run: seq<State>, n: nat)
    requires Enrolled(c.viewer, map[]) && IsRun(c, run) && n < |run|
    ensures Inv(c, run[n])
    decreases n
  {
    if n > 0 {
      RunKeeps(c, run, n - 1);
      assert Next(c, run[n - 1], run[n - 1 + 1]);
      StepKeeps(c, run[n - 1], run[n]);
    }
  }

  /** The corpus as the viewer should see it: each live object at the level a broadcast
      would select. */
  ghost predicate ShowsCorpus(viewer: Option<Viewer>, store: Store, table: Table) {
    forall u :: Get(store, u)
             == if u in table then ShownColumn(Column(table[u], RowLevel(viewer, table, u, table[u]))) else None
  }

  /** Caught up on an open connection, with nothing queued and every save broadcast. */
  ghost predicate AtRest(s: State) {
    s.phase.Live? && !s.closed && s.queue == [] && s.outbox == []
  }

  lemma RestIsRight(c: Conf, s: State)
    requires Inv(c, s) && AtRest(s)
    ensures ShowsCorpus(c.viewer, s.store, s.table)
  {
    forall u
      ensures Get(s.store, u)
           == if u in s.table then ShownColumn(Column(s.table[u], RowLevel(c.viewer, s.table, u, s.table[u]))) else None
    {
      assert Accounted(c, s, u);
    }
  }

  /** Convergence over every run: whatever the interleaving of commits, broadcasts, page
      fetches, overlay reads, queue gets, overflows and reconnections with an honest cursor,
      once catch-up is done on an open connection, its queue is empty and every save is
      broadcast, the client holds exactly the table at its entitled levels. */
  lemma Convergence(c: Conf, run: seq<State>)
    requires Enrolled(c.viewer, map[]) && IsRun(c, run)
    requires AtRest(run[|run| - 1])
    ensures ShowsCorpus(c.viewer, run[|run| - 1].store, run[|run| - 1].table)
  {
    RunKeeps(c, run, |run| - 1);
    RestIsRight(c, run[|run| - 1]);
  }

  ghost predicate Chain(next: (State, State) -> bool, path: seq<State>) {
    path != [] && forall i, j :: 0 <= i && j == i + 1 && j < |path| ==> next(path[i], path[j])
  }

  predicate Draining(s: State) {
    s.phase.Live? && !s.closed
  }

  ghost function NextOf(c: Conf): (State, State) -> bool {
    (s, s') => Next(c, s, s')
  }

  lemma RunIsChain(c: Conf, run: seq<State>)
    ensures IsRun(c, run) <==> Chain(NextOf(c), run) && run[0] == GENESIS
  {
    if Chain(NextOf(c), run) {
      forall i | 0 <= i < |run| - 1 ensures Next(c, run[i], run[i + 1]) {
        assert NextOf(c)(run[i], run[i + 1]);
      }
    }
  }

  // ---- Actions are steps ------------------------------------------------------------

  lemma CommitIsNext(c: Conf, s: State, s': State, written: map<Uid, Row>, news: seq<BroadcastData>)
    requires Commit(c, s, s', written, news)
    ensures NextOf(c)(s, s')
  {
  }

  lemma BroadcastIsNext(c: Conf, s: State, s': State, i: nat)
    requires Broadcast(c, s, s', i)
    ensures NextOf(c)(s, s')
  {
  }

  lemma FetchIsNext(c: Conf, s: State, s': State, page: seq<Uid>, frames: seq<Frame>)
    requires FetchBatch(c, s, s', page, frames)
    ensures NextOf(c)(s, s')
  {
  }

  lemma OverlayIsNext(c: Conf, s: State, s': State, frames: seq<Frame>)
    requires EmitOverlay(c, s, s', frames)
    ensures NextOf(c)(s, s')
  {
  }

  lemma OtherIsNext(c: Conf, s: State, s': State)
    requires Connect(c, s, s') || Relay(s, s')
    ensures NextOf(c)(s, s')
  {
  }
}

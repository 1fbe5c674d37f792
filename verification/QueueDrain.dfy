/** Coalescing and draining against applying every frame: what broadcasts leave a live
    connection showing, in whatever order they are made. */
module QueueDrain {
  import opened AccessFields
  import opened Base
  import opened AccessLevels
  import opened Entitlement
  import opened Frames
  import opened CoalescingQueues
  import opened Replication
  import opened ReplicationProof

  /** An object's slot carries a frame about it; any other slot carries none. */
  predicate Keyed(queue: seq<Slot<Uid, Message>>) {
    forall slot :: slot in queue ==>
      if slot.key.Of? then slot.msg.Object? && slot.msg.frame.uid == slot.key.k else slot.msg.JudgeCall?
  }

  /** The object frames of a queue, in the order they are relayed. */
  function FramesIn(queue: seq<Slot<Uid, Message>>): seq<Frame>
    decreases |queue|
  {
    if queue == [] then []
    else
      var slot := queue[|queue| - 1];
      FramesIn(queue[..|queue| - 1]) + (if slot.msg.Object? then [slot.msg.frame] else [])
  }

  function SlotFor(f: Frame): Slot<Uid, Message> {
    Slot(Of(f.uid), Object(f))
  }

  /** The queue after frames are put one after another, with room for all. */
  function Enqueued(queue: seq<Slot<Uid, Message>>, frames: seq<Frame>): seq<Slot<Uid, Message>>
    decreases |frames|
  {
    if frames == [] then queue
    else Placed(Enqueued(queue, frames[..|frames| - 1]), SlotFor(frames[|frames| - 1]))
  }

  lemma {:induction false} FramesInOne(queue: seq<Slot<Uid, Message>>, u: Uid)
    requires Keyed(queue) && forall slot :: slot in queue ==> slot.key != Of(u)
    ensures LastFor(FramesIn(queue), u).None?
    decreases |queue|
  {
    if queue != [] {
      var init, slot := queue[..|queue| - 1], queue[|queue| - 1];
      assert slot in queue && forall x :: x in init ==> x in queue;
      FramesInOne(init, u);
      LastForAppend(FramesIn(init), if slot.msg.Object? then [slot.msg.frame] else [], u);
    }
  }

  /** The frame a queue holds about an object is the one it will relay about it. */
  lemma {:induction false} FramesInHeld(queue: seq<Slot<Uid, Message>>, slot: Slot<Uid, Message>, u: Uid)
    requires Keyed(queue) && Distinct(queue) && slot in queue && slot.key == Of(u)
    ensures LastFor(FramesIn(queue), u) == Some(slot.msg.frame.payload)
    decreases |queue|
  {
    var init, last := queue[..|queue| - 1], queue[|queue| - 1];
    assert last in queue && forall x :: x in init ==> x in queue;
    LastForAppend(FramesIn(init), if last.msg.Object? then [last.msg.frame] else [], u);
    if last == slot {
      forall x | x in init ensures x.key != Of(u) {
        var i :| 0 <= i < |init| && init[i] == x;
        assert queue[i].key != queue[|queue| - 1].key;
      }
      FramesInOne(init, u);
    } else {
      var i :| 0 <= i < |queue| && queue[i] == slot;
      assert init[i] == slot;
      assert last.key != Of(u);
      FramesInHeld(init, slot, u);
    }
  }

  lemma PlacedKeyed(queue: seq<Slot<Uid, Message>>, f: Frame)
    requires Keyed(queue) && Distinct(queue)
    ensures Keyed(Placed(queue, SlotFor(f))) && Distinct(Placed(queue, SlotFor(f)))
  {
    PlacedEffect(queue, SlotFor(f));
  }

  /** Whether placed or in place of an earlier one, the new frame is the one relayed about its
      object, and every other object keeps its own. */
  lemma PlacedLast(queue: seq<Slot<Uid, Message>>, f: Frame, u: Uid)
    requires Keyed(queue) && Distinct(queue)
    ensures LastFor(FramesIn(Placed(queue, SlotFor(f))), u)
         == if f.uid == u then Some(f.payload) else LastFor(FramesIn(queue), u)
  {
    var placed := Placed(queue, SlotFor(f));
    PlacedEffect(queue, SlotFor(f));
    PlacedKeyed(queue, f);
    if f.uid == u {
      FramesInHeld(placed, SlotFor(f), u);
    } else if slot :| slot in queue && slot.key == Of(u) {
      FramesInHeld(queue, slot, u);
      FramesInHeld(placed, slot, u);
    } else {
      FramesInOne(queue, u);
      FramesInOne(placed, u);
    }
  }

  lemma {:induction false} EnqueuedLast(queue: seq<Slot<Uid, Message>>, frames: seq<Frame>, u: Uid)
    requires Keyed(queue) && Distinct(queue)
    ensures Keyed(Enqueued(queue, frames)) && Distinct(Enqueued(queue, frames))
    ensures LastFor(FramesIn(Enqueued(queue, frames)), u)
         == if LastFor(frames, u).Some? then LastFor(frames, u) else LastFor(FramesIn(queue), u)
    decreases |frames|
  {
    if frames != [] {
      var init, f := frames[..|frames| - 1], frames[|frames| - 1];
      EnqueuedLast(queue, init, u);
      PlacedKeyed(Enqueued(queue, init), f);
      PlacedLast(Enqueued(queue, init), f, u);
    }
  }

  // ---- What a live connection ends up showing ---------------------------------------

  /** What the client shows once its queue is relayed. */
  function Outcome(store: Store, queue: seq<Slot<Uid, Message>>): Store {
    ApplyAll(store, FramesIn(queue))
  }

  lemma {:induction false} FramesInFront(slot: Slot<Uid, Message>, rest: seq<Slot<Uid, Message>>)
    ensures FramesIn([slot] + rest) == (if slot.msg.Object? then [slot.msg.frame] else []) + FramesIn(rest)
    decreases |rest|
  {
    var queue := [slot] + rest;
    if rest == [] {
      assert queue[..0] == [];
    } else {
      assert queue[..|queue| - 1] == [slot] + rest[..|rest| - 1] && queue[|queue| - 1] == rest[|rest| - 1];
      FramesInFront(slot, rest[..|rest| - 1]);
    }
  }

  /** Relaying does not change the outcome, and an empty queue has reached it. */
  lemma RelayKeepsOutcome(s: State, s': State)
    requires Relay(s, s')
    ensures Outcome(s'.store, s'.queue) == Outcome(s.store, s.queue)
    ensures s'.queue == [] ==> s'.store == Outcome(s.store, s.queue)
  {
    var head := s.queue[0];
    assert s.queue == [head] + s'.queue;
    FramesInFront(head, s'.queue);
    if head.msg.Object? {
      ApplyAllAppend(s.store, [head.msg.frame], FramesIn(s'.queue));
      assert ApplyAll(s.store, [head.msg.frame]) == ApplyAll(Apply(s.store, head.msg.frame), []);
    } else {
      assert [] + FramesIn(s'.queue) == FramesIn(s'.queue);
    }
  }

  /** Putting frames one after another, coalesced as they are, comes to applying the last
      frame about each object over what was queued before. */
  lemma OutcomeOfEnqueued(store: Store, queue: seq<Slot<Uid, Message>>, frames: seq<Frame>, u: Uid)
    requires Keyed(queue) && Distinct(queue)
    ensures Get(Outcome(store, Enqueued(queue, frames)), u)
         == if LastFor(frames, u).Some? then Shown(LastFor(frames, u).value) else Get(Outcome(store, queue), u)
  {
    EnqueuedLast(queue, frames, u);
    StoreFollowsLastFrame(store, FramesIn(Enqueued(queue, frames)), u);
    StoreFollowsLastFrame(store, FramesIn(queue), u);
  }

  // ---- The order of broadcasts decides ----------------------------------------------

  /** The frames a viewer is sent for broadcasts made in this order. */
  function FramesFor(viewer: Option<Viewer>, sent: seq<BroadcastData>): seq<Frame>
    decreases |sent|
  {
    if sent == [] then []
    else
      var bd := sent[|sent| - 1];
      var msg := MessageFor(viewer, bd);
      FramesFor(viewer, sent[..|sent| - 1]) + (if msg.Some? then [Frame(bd.uid, msg.value)] else [])
  }

  lemma {:induction false} FramesForLast(viewer: Option<Viewer>, sent: seq<BroadcastData>, u: Uid)
    ensures LastFor(FramesFor(viewer, sent), u) == Outgoing(viewer, sent, u)
    decreases |sent|
  {
    if sent != [] {
      var bd := sent[|sent| - 1];
      var msg := MessageFor(viewer, bd);
      FramesForLast(viewer, sent[..|sent| - 1], u);
      LastForAppend(FramesFor(viewer, sent[..|sent| - 1]), if msg.Some? then [Frame(bd.uid, msg.value)] else [], u);
      if msg.Some? {
        assert [Frame(bd.uid, msg.value)][..0] == [];
      }
    }
  }

  /** Whatever the order broadcasts are made in, a live client ends on the last one made about
      each object that it is sent. */
  lemma LastBroadcastWins(viewer: Option<Viewer>, store: Store, queue: seq<Slot<Uid, Message>>,
                          sent: seq<BroadcastData>, u: Uid)
    requires Keyed(queue) && Distinct(queue)
    ensures Get(Outcome(store, Enqueued(queue, FramesFor(viewer, sent))), u)
         == (var last := Outgoing(viewer, sent, u);
             if last.Some? then Shown(last.value) else Get(Outcome(store, queue), u))
  {
    FramesForLast(viewer, sent, u);
    OutcomeOfEnqueued(store, queue, FramesFor(viewer, sent), u);
  }

  /** So a save broadcast after a later one of the same object is what live clients keep: they
      end right if and only if the two read alike. Going online after offline sanctions
      broadcasts in this order. */
  lemma LateBroadcastIff(viewer: Option<Viewer>, store: Store, queue: seq<Slot<Uid, Message>>,
                         before: Table, first: Table, second: Table, u: Uid)
    requires Keyed(queue) && Distinct(queue) && u in first && u in second
    requires MessageFor(viewer, SaveObject(before, first, u)).Some?
    requires MessageFor(viewer, SaveObject(first, second, u)).Some?
    ensures var older := MessageFor(viewer, SaveObject(before, first, u));
            var newer := MessageFor(viewer, SaveObject(first, second, u));
            var sent := [SaveObject(first, second, u), SaveObject(before, first, u)];
            var shown := Get(Outcome(store, Enqueued(queue, FramesFor(viewer, sent))), u);
            shown == Shown(older.value) && (shown == Shown(newer.value) <==> Shown(older.value) == Shown(newer.value))
  {
    var sent := [SaveObject(first, second, u), SaveObject(before, first, u)];
    LastBroadcastWins(viewer, store, queue, sent, u);
  }

  lemma ModifiedIsPublic(d: Dict)
    ensures "modified" in d ==> "modified" in TournamentPublic(d) && TournamentPublic(d)["modified"] == d["modified"]
  {
    assert "modified" in TOURNAMENT_PUBLIC_FIELDS && "modified" != "venue_url";
  }

  /** They never do when a save moves `modified`, as every save of an event does: the public
      ends on the older save of the two. */
  lemma LateBroadcastIsStale(store: Store, queue: seq<Slot<Uid, Message>>, d1: Dict, d2: Dict, u: Uid,
                             first: Table, second: Table)
    requires Keyed(queue) && Distinct(queue) && !IsDeleted(d1) && !IsDeleted(d2)
    requires "modified" in d1 && "modified" in d2 && d1["modified"] != d2["modified"]
    requires first == map[u := Project(TOURNAMENT, d1, 1)] && second == map[u := Project(TOURNAMENT, d2, 2)]
    ensures var sent := [SaveObject(first, second, u), SaveObject(map[], first, u)];
            var shown := Get(Outcome(store, Enqueued(queue, FramesFor(None, sent))), u);
            shown == ShownColumn(first[u].pub) && shown != ShownColumn(second[u].pub)
  {
    ModifiedIsPublic(d1);
    ModifiedIsPublic(d2);
    PublicKeepsMark(TOURNAMENT, d1);
    PublicKeepsMark(TOURNAMENT, d2);
    LateBroadcastIff(None, store, queue, map[], first, second, u);
  }
}

/** The shipped client: batch frames are held back until `sync_complete`, then saved and
    only afterwards deleted, while single frames are applied as they come. An object has one
    type, so the client's buffers per type are kept as one here. */
module ClientBuffer {
  import opened Base
  import opened AccessLevels
  import opened Entitlement
  import opened Frames
  import opened KeysetPaging
  import opened SyncCursor

  datatype Message = Batch(frames: seq<Frame>) | Single(frame: Frame) | SyncComplete

  // ---- What flushing a buffer does --------------------------------------------------

  function Saves(buffer: seq<Frame>): seq<Frame> {
    if buffer == [] then []
    else
      var f := buffer[|buffer| - 1];
      Saves(buffer[..|buffer| - 1]) + (if IsDeleted(f.payload) then [] else [f])
  }

  function Deletes(buffer: seq<Frame>): seq<Frame> {
    if buffer == [] then []
    else
      var f := buffer[|buffer| - 1];
      Deletes(buffer[..|buffer| - 1]) + (if IsDeleted(f.payload) then [f] else [])
  }

  function Flushed(store: Store, buffer: seq<Frame>): Store {
    ApplyAll(ApplyAll(store, Saves(buffer)), Deletes(buffer))
  }

  datatype State = State(store: Store, buffer: seq<Frame>)

  function Received(s: State, m: Message): State {
    match m
    case Batch(frames) => State(s.store, s.buffer + frames)
    case Single(frame) => State(Apply(s.store, frame), s.buffer)
    case SyncComplete => State(Flushed(s.store, s.buffer), [])
  }

  function ReceivedAll(s: State, ms: seq<Message>): State
    decreases |ms|
  {
    if ms == [] then s else ReceivedAll(Received(s, ms[0]), ms[1..])
  }

  class Client {
    var store: Store
    var buffer: seq<Frame>

    constructor (store: Store)
      ensures this.store == store && buffer == []
    {
      this.store := store;
      buffer := [];
    }

    method ApplyFrames(frames: seq<Frame>)
      modifies this`store
      ensures store == ApplyAll(old(store), frames)
    {
      assert frames[..0] == [];
      for i := 0 to |frames|
        invariant store == ApplyAll(old(store), frames[..i])
      {
        assert frames[..i + 1] == frames[..i] + [frames[i]];
        ApplyAllAppend(old(store), frames[..i], [frames[i]]);
        if IsDeleted(frames[i].payload) {
          store := store - {frames[i].uid};
        } else {
          store := store[frames[i].uid := frames[i].payload];
        }
        assert ApplyAll(ApplyAll(old(store), frames[..i]), [frames[i]])
            == ApplyAll(Apply(ApplyAll(old(store), frames[..i]), frames[i]), []);
      }
      assert frames[..|frames|] == frames;
    }

    method FlushAllBuffers()
      modifies this
      ensures store == Flushed(old(store), old(buffer)) && buffer == []
    {
      var toSave, toDelete := [], [];
      for i := 0 to |buffer|
        invariant store == old(store) && buffer == old(buffer)
        invariant toSave == Saves(buffer[..i]) && toDelete == Deletes(buffer[..i])
      {
        assert buffer[..i + 1][..i] == buffer[..i];
        if IsDeleted(buffer[i].payload) {
          toDelete := toDelete + [buffer[i]];
        } else {
          toSave := toSave + [buffer[i]];
        }
      }
      assert buffer[..|buffer|] == buffer;
      ApplyFrames(toSave);
      ApplyFrames(toDelete);
      buffer := [];
    }

    /** Handles one message as it comes. */
    method OnMessage(m: Message)
      modifies this
      ensures State(store, buffer) == Received(State(old(store), old(buffer)), m)
    {
      match m
      case Batch(frames) => buffer := buffer + frames;
      case Single(frame) => store := Apply(store, frame);
      case SyncComplete => FlushAllBuffers();
    }

    /** A whole catch-up: message after message, then `sync_complete`. The single frames are
        applied first, whenever they came, and the buffered ones are flushed over them. */
    method CatchUp(ms: seq<Message>)
      requires BeforeSync(ms)
      modifies this
      ensures store == Flushed(ApplyAll(old(store), Singles(ms)), old(buffer) + Batched(ms)) && buffer == []
    {
      ghost var start := State(store, buffer);
      for i := 0 to |ms|
        invariant State(store, buffer) == ReceivedAll(start, ms[..i])
      {
        ReceivedOneMore(start, ms, i);
        OnMessage(ms[i]);
      }
      assert ms[..|ms|] == ms;
      HeldBack(start, ms);
      OnMessage(SyncComplete);
    }
  }

  // ---- One object through a flush ---------------------------------------------------

  /** The buffer holds a tombstone for the object. */
  predicate Drops(buffer: seq<Frame>, uid: Uid) {
    buffer != [] &&
    var f := buffer[|buffer| - 1];
    Drops(buffer[..|buffer| - 1], uid) || (f.uid == uid && IsDeleted(f.payload))
  }

  lemma {:induction false} DropsIff(buffer: seq<Frame>, uid: Uid)
    ensures Drops(buffer, uid) <==> exists f :: f in buffer && f.uid == uid && IsDeleted(f.payload)
    decreases |buffer|
  {
    if buffer != [] {
      var init, f := buffer[..|buffer| - 1], buffer[|buffer| - 1];
      DropsIff(init, uid);
      assert forall g :: g in buffer <==> g in init || g == f;
    }
  }

  lemma LastForOneMore(frames: seq<Frame>, f: Frame, uid: Uid)
    ensures LastFor(frames + [f], uid) == if f.uid == uid then Some(f.payload) else LastFor(frames, uid)
  {
    assert (frames + [f])[..|frames|] == frames;
  }

  lemma {:induction false} DeletesOf(buffer: seq<Frame>, uid: Uid)
    ensures LastFor(Deletes(buffer), uid).Some? <==> Drops(buffer, uid)
    ensures LastFor(Deletes(buffer), uid).Some? ==> IsDeleted(LastFor(Deletes(buffer), uid).value)
    decreases |buffer|
  {
    if buffer != [] {
      var init, f := buffer[..|buffer| - 1], buffer[|buffer| - 1];
      DeletesOf(init, uid);
      if IsDeleted(f.payload) {
        LastForOneMore(Deletes(init), f, uid);
      } else {
        assert Deletes(buffer) == Deletes(init);
      }
    }
  }

  lemma {:induction false} SavesOf(buffer: seq<Frame>, uid: Uid)
    ensures !Drops(buffer, uid) ==> LastFor(Saves(buffer), uid) == LastFor(buffer, uid)
    ensures LastFor(Saves(buffer), uid).Some? ==> !IsDeleted(LastFor(Saves(buffer), uid).value)
    decreases |buffer|
  {
    if buffer != [] {
      var init, f := buffer[..|buffer| - 1], buffer[|buffer| - 1];
      SavesOf(init, uid);
      if IsDeleted(f.payload) {
        assert Saves(buffer) == Saves(init);
      } else {
        LastForOneMore(Saves(init), f, uid);
      }
    }
  }

  /** A tombstone anywhere in the buffer wins; otherwise the last buffered frame does. */
  lemma FlushShows(store: Store, buffer: seq<Frame>, uid: Uid)
    ensures Get(Flushed(store, buffer), uid)
         == if Drops(buffer, uid) then None
            else if LastFor(buffer, uid).Some? then LastFor(buffer, uid)
            else Get(store, uid)
  {
    DeletesOf(buffer, uid);
    SavesOf(buffer, uid);
    StoreFollowsLastFrame(ApplyAll(store, Saves(buffer)), Deletes(buffer), uid);
    StoreFollowsLastFrame(store, Saves(buffer), uid);
  }

  // ---- A whole connection -----------------------------------------------------------

  function FramesOf(m: Message): seq<Frame> {
    match m
    case Batch(frames) => frames
    case Single(frame) => [frame]
    case SyncComplete => []
  }

  /** Every frame delivered, in order: what the last-writer-wins store applies. */
  function Delivered(ms: seq<Message>): seq<Frame> {
    if ms == [] then [] else FramesOf(ms[0]) + Delivered(ms[1..])
  }

  function Batched(ms: seq<Message>): seq<Frame> {
    if ms == [] then [] else (if ms[0].Batch? then ms[0].frames else []) + Batched(ms[1..])
  }

  function Singles(ms: seq<Message>): seq<Frame> {
    if ms == [] then [] else (if ms[0].Single? then [ms[0].frame] else []) + Singles(ms[1..])
  }

  predicate BeforeSync(ms: seq<Message>) {
    forall m :: m in ms ==> m != SyncComplete
  }

  /** Until `sync_complete` the store has seen the single frames only, and the buffer holds
      the batched ones. */
  lemma {:induction false} HeldBack(s: State, ms: seq<Message>)
    requires BeforeSync(ms)
    ensures ReceivedAll(s, ms) == State(ApplyAll(s.store, Singles(ms)), s.buffer + Batched(ms))
    decreases |ms|
  {
    if ms == [] {
      assert s.buffer + [] == s.buffer;
    } else {
      var next := Received(s, ms[0]);
      assert ms[0] in ms && forall m :: m in ms[1..] ==> m in ms;
      HeldBack(next, ms[1..]);
      FirstHeldBack(s, ms[0], Singles(ms[1..]), Batched(ms[1..]));
    }
  }

  lemma FirstHeldBack(s: State, m: Message, singles: seq<Frame>, batched: seq<Frame>)
    requires m != SyncComplete
    ensures var next := Received(s, m);
            && ApplyAll(next.store, singles) == ApplyAll(s.store, (if m.Single? then [m.frame] else []) + singles)
            && next.buffer + batched == s.buffer + ((if m.Batch? then m.frames else []) + batched)
  {
    if m.Single? {
      ApplyFirst(s.store, m.frame, singles);
      assert [] + batched == batched;
    } else {
      assert [] + singles == singles;
    }
  }

  lemma ApplyFirst(store: Store, f: Frame, frames: seq<Frame>)
    ensures ApplyAll(store, [f] + frames) == ApplyAll(Apply(store, f), frames)
  {
    assert ([f] + frames)[1..] == frames;
  }

  lemma {:induction false} ReceivedAllAppend(s: State, a: seq<Message>, b: seq<Message>)
    ensures ReceivedAll(s, a + b) == ReceivedAll(ReceivedAll(s, a), b)
    decreases |a|
  {
    if a == [] {
      assert a + b == b;
    } else {
      assert (a + b)[0] == a[0] && (a + b)[1..] == a[1..] + b;
      ReceivedAllAppend(Received(s, a[0]), a[1..], b);
    }
  }

  lemma ReceivedOneMore(s: State, ms: seq<Message>, i: nat)
    requires i < |ms|
    ensures ReceivedAll(s, ms[..i + 1]) == Received(ReceivedAll(s, ms[..i]), ms[i])
  {
    assert ms[..i + 1] == ms[..i] + [ms[i]];
    ReceivedAllAppend(s, ms[..i], [ms[i]]);
    var next := Received(ReceivedAll(s, ms[..i]), ms[i]);
    assert ReceivedAll(ReceivedAll(s, ms[..i]), [ms[i]]) == ReceivedAll(next, []);
  }

  /** The store once the catch-up is over. */
  function Synced(store: Store, ms: seq<Message>): Store {
    ReceivedAll(State(store, []), ms + [SyncComplete]).store
  }

  lemma SyncedIsFlushed(store: Store, ms: seq<Message>)
    requires BeforeSync(ms)
    ensures Synced(store, ms) == Flushed(ApplyAll(store, Singles(ms)), Batched(ms))
  {
    HeldBack(State(store, []), ms);
    ReceivedAllAppend(State(store, []), ms, [SyncComplete]);
    var held := ReceivedAll(State(store, []), ms);
    assert ReceivedAll(held, [SyncComplete]) == ReceivedAll(Received(held, SyncComplete), []);
    assert [] + Batched(ms) == Batched(ms);
  }

  /** When the shipped client ends a catch-up showing what the last frame delivered shows:
      nothing was batched for the object; or a tombstone was, and the last frame is one too;
      or none was, and the last frame shows what the last batched one does. */
  lemma FlushAgreesIff(store: Store, ms: seq<Message>, uid: Uid)
    requires BeforeSync(ms)
    ensures Get(Synced(store, ms), uid) == Get(ApplyAll(store, Delivered(ms)), uid) <==>
      var batched, last := LastFor(Batched(ms), uid), LastFor(Delivered(ms), uid);
      || batched.None?
      || (last.Some? && if Drops(Batched(ms), uid) then IsDeleted(last.value) else last == batched)
  {
    SyncedIsFlushed(store, ms);
    FlushShows(ApplyAll(store, Singles(ms)), Batched(ms), uid);
    StoreFollowsLastFrame(store, Singles(ms), uid);
    StoreFollowsLastFrame(store, Delivered(ms), uid);
    PartsOfDelivery(ms, uid);
    DropsMeansBatched(Batched(ms), uid);
  }

  lemma {:induction false} DropsMeansBatched(buffer: seq<Frame>, uid: Uid)
    ensures Drops(buffer, uid) ==> LastFor(buffer, uid).Some?
    ensures LastFor(buffer, uid).Some? && IsDeleted(LastFor(buffer, uid).value) ==> Drops(buffer, uid)
    decreases |buffer|
  {
    if buffer != [] {
      DropsMeansBatched(buffer[..|buffer| - 1], uid);
    }
  }

  /** A delivery without batched frames about the object is its single frames. */
  lemma {:induction false} PartsOfDelivery(ms: seq<Message>, uid: Uid)
    requires BeforeSync(ms)
    ensures LastFor(Batched(ms), uid).None? ==> LastFor(Delivered(ms), uid) == LastFor(Singles(ms), uid)
    ensures LastFor(Batched(ms), uid).Some? ==> LastFor(Delivered(ms), uid).Some?
    decreases |ms|
  {
    if ms != [] {
      assert forall m :: m in ms[1..] ==> m in ms;
      PartsOfDelivery(ms[1..], uid);
      LastForAppend(FramesOf(ms[0]), Delivered(ms[1..]), uid);
      LastForAppend(if ms[0].Batch? then ms[0].frames else [], Batched(ms[1..]), uid);
      LastForAppend(if ms[0].Single? then [ms[0].frame] else [], Singles(ms[1..]), uid);
      assert ms[0] in ms;
    }
  }

  // ---- The catch-up of a member -----------------------------------------------------

  /** Selected by an overlay query other than the own profile's: sent in a batch. */
  predicate InBatchedOverlay(v: Viewer, table: Table, uid: Uid) {
    Selects(OwnDecks, v, table, uid) || Selects(CountryUsers, v, table, uid)
    || Selects(CountryTournaments, v, table, uid) || Selects(Promos, v, table, uid)
    || Selects(Organized, v, table, uid)
  }

  /** A member's catch-up: the delta in batches, the own profile as a single frame, the rest
      of the overlay in batches. */
  ghost predicate IsCatchUp(ms: seq<Message>, base: seq<Frame>, own: seq<Frame>, rest: seq<Frame>,
                            v: Viewer, table: Table, since: Option<nat>) {
    && BeforeSync(ms) && Delivered(ms) == base + own + rest && Batched(ms) == base + rest && Singles(ms) == own
    && CarriesDelta(base, Member, table, since)
    && (own == if Selects(OwnProfile, v, table, v.uid) then [Frame(v.uid, table[v.uid].full)] else [])
    && (forall f :: f in rest ==> InBatchedOverlay(v, table, f.uid) && f.payload == table[f.uid].full)
    && (forall uid :: InBatchedOverlay(v, table, uid) ==> Frame(uid, table[uid].full) in rest)
  }

  lemma BaseFrame(base: seq<Frame>, table: Table, since: Option<nat>, uid: Uid)
    requires CarriesDelta(base, Member, table, since) && uid in table && Sound(table[uid])
    ensures LastFor(base, uid)
         == if After(since, table[uid]) then Some(StreamedPayload(Member, uid, table[uid])) else None
  {
    LastForOccurs(base, uid);
    StreamedAbovePublic(Member, table[uid]);
  }

  lemma RestFrame(rest: seq<Frame>, v: Viewer, table: Table, uid: Uid)
    requires forall f :: f in rest ==> InBatchedOverlay(v, table, f.uid) && f.payload == table[f.uid].full
    requires forall u :: InBatchedOverlay(v, table, u) ==> Frame(u, table[u].full) in rest
    ensures LastFor(rest, uid) == if InBatchedOverlay(v, table, uid) then Some(table[uid].full) else None
  {
    LastForOccurs(rest, uid);
  }

  /** Only a retraction puts a tombstone of a live object into the buffer. */
  lemma DropsRetracted(base: seq<Frame>, rest: seq<Frame>, v: Viewer, table: Table, since: Option<nat>, uid: Uid)
    requires CarriesDelta(base, Member, table, since) && uid in table && Sound(table[uid]) && !table[uid].deleted
    requires forall f :: f in rest ==> InBatchedOverlay(v, table, f.uid) && f.payload == table[f.uid].full
    ensures Drops(base + rest, uid) <==> After(since, table[uid]) && table[uid].mem.None?
  {
    DropsIff(base + rest, uid);
    StreamedAbovePublic(Member, table[uid]);
    if After(since, table[uid]) {
      assert Frame(uid, StreamedPayload(Member, uid, table[uid])) in base + rest;
    }
  }

  /** The client loses an object the catch-up delivered exactly when the delta retracts it
      and the overlay gives it back (a private deck to its owner or organizer), or when it is
      the own profile, updated since, that no other query selects: then the member projection
      held back overwrites the full one. */
  lemma CatchUpIsLostIff(store: Store, ms: seq<Message>, base: seq<Frame>, own: seq<Frame>, rest: seq<Frame>,
                         v: Viewer, table: Table, since: Option<nat>, uid: Uid)
    requires IsCatchUp(ms, base, own, rest, v, table, since)
    requires uid in table && !table[uid].deleted && Sound(table[uid])
    ensures Get(Synced(store, ms), uid) != Get(ApplyAll(store, Delivered(ms)), uid) <==>
      var row := table[uid];
      && After(since, row)
      && if InBatchedOverlay(v, table, uid) then row.mem.None?
         else Selects(OwnProfile, v, table, uid) && row.mem != Some(row.full)
  {
    FlushAgreesIff(store, ms, uid);
    BaseFrame(base, table, since, uid);
    RestFrame(rest, v, table, uid);
    DropsRetracted(base, rest, v, table, since, uid);
    LastForAppend(base, rest, uid);
    LastForAppend(base + own, rest, uid);
    LastForAppend(base, own, uid);
    if own != [] {
      assert own == [] + [own[0]];
      LastForOneMore([], own[0], uid);
    }
  }

  const OWNER: Viewer := Viewer("v", {}, None, Some("1"))

  /** A private deck of the owner's, saved since the cursor, in an event of somebody else's. */
  predicate OwnPrivateDeck(deck: Row, event: Row, table: Table) {
    && Sound(deck) && deck.ty == DECK && !deck.deleted && deck.mem.None? && deck.stamp == 2
    && StrField(deck.full, "user_uid") == Some("v") && StrField(deck.full, "tournament_uid") == Some("t")
    && Sound(event) && event.ty == TOURNAMENT && event.stamp == 1
    && "v" !in StringsField(event.full, "organizers_uids")
    && table == map["d" := deck, "t" := event]
  }

  lemma OnlyTheDeck(deck: Row, event: Row, table: Table, u: Uid)
    requires OwnPrivateDeck(deck, event, table)
    ensures InBatchedOverlay(OWNER, table, u) <==> u == "d"
    ensures !Selects(OwnProfile, OWNER, table, u)
  {
  }

  lemma TwoBatches(base: seq<Frame>, rest: seq<Frame>)
    ensures var ms := [Batch(base), Batch(rest)];
            Delivered(ms) == base + rest && Batched(ms) == base + rest && Singles(ms) == []
  {
    var ms := [Batch(base), Batch(rest)];
    assert ms[1..] == [Batch(rest)] && ms[1..][1..] == [];
    assert Delivered(ms[1..]) == rest + [] == rest;
    assert Batched(ms[1..]) == rest + [] == rest;
    assert Singles(ms[1..]) == [] + [];
  }

  lemma DeckDelivered(deck: Row, event: Row, table: Table, base: seq<Frame>, rest: seq<Frame>)
    requires OwnPrivateDeck(deck, event, table)
    requires base == [Frame("d", Tombstone("d", 2))] && rest == [Frame("d", deck.full)]
    ensures IsCatchUp([Batch(base), Batch(rest)], base, [], rest, OWNER, table, Some(1))
  {
    var ms := [Batch(base), Batch(rest)];
    TwoBatches(base, rest);
    assert base + [] + rest == base + rest;
    assert base[0] in base && rest[0] in rest;
    forall u ensures (InBatchedOverlay(OWNER, table, u) <==> u == "d") && !Selects(OwnProfile, OWNER, table, u) {
      OnlyTheDeck(deck, event, table, u);
    }
  }

  /** The loss occurs: a private deck changed since the cursor, retracted by the delta and
      given back to its owner by the overlay, is in the frames delivered and not in the
      client's store. */
  lemma OwnDeckIsLost(store: Store, deck: Row, event: Row, table: Table, base: seq<Frame>, rest: seq<Frame>)
    requires OwnPrivateDeck(deck, event, table)
    requires base == [Frame("d", Tombstone("d", 2))] && rest == [Frame("d", deck.full)]
    ensures IsCatchUp([Batch(base), Batch(rest)], base, [], rest, OWNER, table, Some(1))
    ensures Get(ApplyAll(store, Delivered([Batch(base), Batch(rest)])), "d") == Some(deck.full)
    ensures Get(Synced(store, [Batch(base), Batch(rest)]), "d") == None
  {
    var ms := [Batch(base), Batch(rest)];
    DeckDelivered(deck, event, table, base, rest);
    OnlyTheDeck(deck, event, table, "d");
    RestFrame(rest, OWNER, table, "d");
    LastForAppend(base, rest, "d");
    StoreFollowsLastFrame(store, Delivered(ms), "d");
    SyncedIsFlushed(store, ms);
    FlushShows(ApplyAll(store, Singles(ms)), Batched(ms), "d");
    DropsRetracted(base, rest, OWNER, table, Some(1), "d");
  }
}

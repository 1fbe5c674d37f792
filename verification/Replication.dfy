/** The replication protocol of one unscoped connection as a state machine: commits,
    broadcasts, paged catch-up, personal overlay, the live drain, overflow and reconnection,
    interleaved in any order. */
module Replication {
  import opened Base
  import opened AccessLevels
  import opened Entitlement
  import opened Frames
  import opened KeysetPaging
  import opened PullPush
  import opened CoalescingQueues

  /** A viewer, the level they are entitled to for each object throughout the run, the
      catch-up batch size and the queue bound. */
  datatype Conf = Conf(viewer: Option<Viewer>, ent: Uid -> Level, batchSize: nat, maxsize: nat)

  /** What a save hands to the broadcast. */
  datatype BroadcastData = BroadcastData(uid: Uid, row: Row, orgUids: set<Uid>, retracted: set<Level>)

  datatype Message = Object(frame: Frame) | JudgeCall

  datatype Phase = Offline | Paging(typeIndex: nat, cursor: Option<Key>) | Overlay(next: nat) | Live

  /** `outbox` holds the committed saves not yet broadcast; `closed` records an overflow. */
  datatype State = State(table: Table, clock: nat, outbox: seq<BroadcastData>,
                         phase: Phase, since: Option<nat>,
                         queue: seq<Slot<Uid, Message>>, seqNo: nat, closed: bool, store: Store)

  const STREAM_TYPES: seq<ObjectType> := [USER, SANCTION, TOURNAMENT, DECK, LEAGUE, PROMO]

  function TypeIndex(ty: ObjectType): (i: nat)
    ensures i < 6 && STREAM_TYPES[i] == ty
  {
    match ty
    case USER => 0
    case SANCTION => 1
    case TOURNAMENT => 2
    case DECK => 3
    case LEAGUE => 4
    case PROMO => 5
  }

  function BaseLevel(c: Conf): Level {
    BaseDataLevel(c.viewer)
  }

  // ---- Saving and broadcasting ------------------------------------------------------

  /** Levels that had a projection before the write and have none after. */
  function RetractedLevels(table: Table, uid: Uid, row: Row): set<Level> {
    (if uid in table && table[uid].pub.Some? && row.pub.None? then {Public} else {})
    + (if uid in table && table[uid].mem.Some? && row.mem.None? then {Member} else {})
  }

  function SaveObject(before: Table, after: Table, uid: Uid): BroadcastData
    requires uid in after
  {
    BroadcastData(uid, after[uid], OrgUids(after, after[uid]), RetractedLevels(before, uid, after[uid]))
  }

  function BroadcastLevel(viewer: Option<Viewer>, bd: BroadcastData): Level {
    EntitledLevel(viewer, bd.row.ty, bd.uid, StrField(bd.row.full, "country"), bd.orgUids,
                  StrField(bd.row.full, "user_uid"))
  }

  /** The payload a connection of the viewer is sent, if any. */
  function MessageFor(viewer: Option<Viewer>, bd: BroadcastData): Option<Dict> {
    var level := BroadcastLevel(viewer, bd);
    if level in bd.retracted then Some(Tombstone(bd.uid, bd.row.stamp)) else Column(bd.row, level)
  }

  /** The last payload the outbox will still send about an object. */
  function Outgoing(viewer: Option<Viewer>, outbox: seq<BroadcastData>, uid: Uid): Option<Dict> {
    if outbox == [] then None
    else
      var n := |outbox| - 1;
      if outbox[n].uid == uid && MessageFor(viewer, outbox[n]).Some? then MessageFor(viewer, outbox[n])
      else Outgoing(viewer, outbox[..n], uid)
  }

  function Without(outbox: seq<BroadcastData>, i: nat): seq<BroadcastData>
    requires i < |outbox|
  {
    outbox[..i] + outbox[i + 1..]
  }

  // ---- Steps ------------------------------------------------------------------------

  /** The news of a transaction: one save per row written, in any order. */
  ghost predicate Announces(news: seq<BroadcastData>, before: Table, after: Table, written: set<Uid>) {
    && (forall i :: 0 <= i < |news| ==>
          news[i].uid in written && news[i].uid in after && news[i] == SaveObject(before, after, news[i].uid))
    && (forall i, j :: 0 <= i < j < |news| ==> news[i].uid != news[j].uid)
    && (forall u :: u in written ==> exists i :: 0 <= i < |news| && news[i].uid == u)
  }

  /** The viewer is enrolled, and their entitlement to every stored object is the fixed one. */
  ghost predicate Entitled(c: Conf, table: Table) {
    Enrolled(c.viewer, table) &&
    forall u :: u in table ==> RowLevel(c.viewer, table, u, table[u]) == c.ent(u)
  }

  /** A transaction writes rows atomically under one stamp above every earlier one; a row
      never changes type, and live decks keep a live event. */
  ghost predicate Commit(c: Conf, s: State, s': State, written: map<Uid, Row>, news: seq<BroadcastData>) {
    && s.clock < s'.clock
    && s'.table == s.table + written
    && (forall u :: u in written ==>
          Saved(written[u]) && written[u].stamp == s'.clock && (u in s.table ==> s.table[u].ty == written[u].ty))
    && (forall u :: u in s'.table ==> HasEvent(s'.table, s'.table[u]))
    && Entitled(c, s'.table)
    && Announces(news, s.table, s'.table, written.Keys)
    && s' == s.(table := s'.table, clock := s'.clock, outbox := s.outbox + news)
  }

  /** Broadcasts of one object happen in commit order. A connection that cannot take the
      frame is closed and leaves the broadcast set. */
  ghost predicate Broadcast(c: Conf, s: State, s': State, i: nat) {
    && i < |s.outbox|
    && (forall j :: 0 <= j < i ==> s.outbox[j].uid != s.outbox[i].uid)
    && var bd := s.outbox[i];
       var msg := MessageFor(c.viewer, bd);
       var sent := s.(outbox := Without(s.outbox, i));
       if s.phase.Offline? || s.closed || msg.None? then s' == sent
       else if Accepts(s.queue, Of(bd.uid), c.maxsize) then
         s' == sent.(queue := Placed(s.queue, Slot(Of(bd.uid), Object(Frame(bd.uid, msg.value)))))
       else s' == sent.(closed := true)
  }

  /** A save is not sent to the device that made it: that device takes the row from the
      response to its request, which finds no earlier frame about the object queued. */
  ghost predicate Answer(c: Conf, s: State, s': State, i: nat) {
    && i < |s.outbox|
    && (forall j :: 0 <= j < i ==> s.outbox[j].uid != s.outbox[i].uid)
    && !s.phase.Offline? && !s.closed
    && var bd := s.outbox[i];
       var msg := MessageFor(c.viewer, bd);
       && msg.Some? && !Pending(s.queue, Of(bd.uid))
       && s' == s.(outbox := Without(s.outbox, i), store := Apply(s.store, Frame(bd.uid, msg.value)))
  }

  ghost predicate CallJudge(c: Conf, s: State, s': State) {
    && !s.phase.Offline? && !s.closed
    && if Accepts(s.queue, Auto(s.seqNo), c.maxsize) then
         s' == s.(seqNo := s.seqNo + 1, queue := Placed(s.queue, Slot(Auto(s.seqNo), JudgeCall)))
       else s' == s.(seqNo := s.seqNo + 1, closed := true)
  }

  /** The cursor a client reconnects with is honest: the store is right about every row up
      to it at the base or the entitled level, and holds nothing the catch-up will not mention. */
  ghost predicate Honest(c: Conf, store: Store, table: Table, since: Option<nat>) {
    && (forall u :: u in store ==> u in table)
    && (forall u :: u in table && since.Some? && table[u].stamp <= since.value ==>
          Get(store, u) == ShownColumn(Column(table[u], BaseLevel(c)))
          || Get(store, u) == ShownColumn(Column(table[u], c.ent(u))))
    && (forall u :: u in table && (since.None? || since.value < table[u].stamp) && !Streams(BaseLevel(c), table[u]) ==>
          u !in store)
  }

  /** A client comes with a store and a cursor that fit: nothing, a snapshot, or its own store
      (`LiveCursor` says with which cursors). The connection joins the broadcast set before
      its catch-up begins. */
  ghost predicate Connect(c: Conf, s: State, s': State) {
    && s.phase.Offline?
    && Honest(c, s'.store, s.table, s'.since)
    && (s'.since.Some? ==> s'.since.value <= s.clock)
    && s' == s.(phase := Paging(0, None), since := s'.since, queue := [], seqNo := 0, closed := false,
                store := s'.store)
  }

  ghost predicate Disconnect(s: State, s': State) {
    s' == s.(phase := Offline)
  }

  function AfterType(c: Conf, typeIndex: nat): Phase {
    if typeIndex + 1 < 6 then Paging(typeIndex + 1, None)
    else if HasOverlay(c.viewer) then Overlay(0) else Live
  }

  function StreamQuery(c: Conf, s: State, typeIndex: nat): Query
    requires typeIndex < 6
  {
    Query(STREAM_TYPES[typeIndex], BaseLevel(c), s.since)
  }

  ghost predicate PageFrames(frames: seq<Frame>, level: Level, table: Table, page: seq<Uid>) {
    && |frames| == |page|
    && forall i :: 0 <= i < |page| ==>
         page[i] in table && frames[i] == Frame(page[i], StreamedPayload(level, page[i], table[page[i]]))
  }

  ghost predicate FetchBatch(c: Conf, s: State, s': State, page: seq<Uid>, frames: seq<Frame>) {
    && s.phase.Paging? && s.phase.typeIndex < 6 && 0 < c.batchSize
    && IsPage(StreamQuery(c, s, s.phase.typeIndex), s.phase.cursor, c.batchSize, s.table, page)
    && PageFrames(frames, BaseLevel(c), s.table, page)
    && s' == s.(store := ApplyAll(s.store, frames),
                phase := if |page| < c.batchSize then AfterType(c, s.phase.typeIndex)
                         else Paging(s.phase.typeIndex, Some(KeyOf(s.table, page[|page| - 1]))))
  }

  const OVERLAY_QUERIES: seq<OverlayQuery> :=
    [OwnProfile, OwnDecks, CountryUsers, CountryTournaments, Promos, Organized]

  /** One query of the overlay, read from the table as it stands; the organizer query and
      the deck query it feeds are one read. */
  ghost predicate EmitOverlay(c: Conf, s: State, s': State, frames: seq<Frame>) {
    && s.phase.Overlay? && s.phase.next < 6 && c.viewer.Some?
    && var q := OVERLAY_QUERIES[s.phase.next];
    && (forall f :: f in frames ==> Selects(q, c.viewer.value, s.table, f.uid) && f.payload == s.table[f.uid].full)
    && (forall u :: Selects(q, c.viewer.value, s.table, u) ==> Frame(u, s.table[u].full) in frames)
    && s' == s.(store := ApplyAll(s.store, frames),
                phase := if s.phase.next + 1 < 6 then Overlay(s.phase.next + 1) else Live)
  }

  ghost predicate Relay(s: State, s': State) {
    && s.phase.Live? && !s.closed && s.queue != []
    && s' == s.(queue := s.queue[1..],
                store := if s.queue[0].msg.Object? then Apply(s.store, s.queue[0].msg.frame) else s.store)
  }

  ghost predicate Next(c: Conf, s: State, s': State) {
    || (exists written, news :: Commit(c, s, s', written, news))
    || (exists i :: Broadcast(c, s, s', i))
    || (exists i :: Answer(c, s, s', i))
    || CallJudge(c, s, s')
    || Connect(c, s, s')
    || Disconnect(s, s')
    || (exists page, frames :: FetchBatch(c, s, s', page, frames))
    || (exists frames :: EmitOverlay(c, s, s', frames))
    || Relay(s, s')
  }

  const GENESIS: State := State(map[], 0, [], Offline, None, [], 0, false, map[])

  ghost predicate IsRun(c: Conf, run: seq<State>) {
    && run != [] && run[0] == GENESIS
    && forall i :: 0 <= i < |run| - 1 ==> Next(c, run[i], run[i + 1])
  }

  // ---- The invariant ----------------------------------------------------------------

  /** What the viewer should be shown of an object. */
  function Expected(c: Conf, table: Table, uid: Uid): Option<Dict> {
    if uid in table then ShownColumn(Column(table[uid], c.ent(uid))) else None
  }

  ghost predicate TableInv(c: Conf, s: State) {
    && (forall u :: u in s.table ==>
          Sound(s.table[u]) && s.table[u].stamp <= s.clock && HasEvent(s.table, s.table[u]))
    && Entitled(c, s.table)
  }

  /** The last frame still to be broadcast about an object shows what the viewer should see. */
  ghost predicate OutboxInv(c: Conf, s: State) {
    && (forall i :: 0 <= i < |s.outbox| ==> s.outbox[i].uid in s.table)
    && (forall u :: Outgoing(c.viewer, s.outbox, u).Some? ==>
          Shown(Outgoing(c.viewer, s.outbox, u).value) == Expected(c, s.table, u))
  }

  predicate InQueue(s: State, u: Uid) {
    Pending(s.queue, Of(u))
  }

  /** A queued frame is superseded by the outbox or shows what the viewer should see. */
  ghost predicate QueueSlotOk(c: Conf, s: State, slot: Slot<Uid, Message>) {
    match slot.key
    case Auto(n) => n < s.seqNo && slot.msg.JudgeCall?
    case Of(u) =>
      && slot.msg.Object? && slot.msg.frame.uid == u
      && (Outgoing(c.viewer, s.outbox, u).None? ==> Shown(slot.msg.frame.payload) == Expected(c, s.table, u))
  }

  ghost predicate QueueInv(c: Conf, s: State) {
    Distinct(s.queue) && forall i :: 0 <= i < |s.queue| ==> QueueSlotOk(c, s, s.queue[i])
  }

  /** A frame about the object is on its way through the broadcast. */
  predicate OnItsWay(c: Conf, s: State, u: Uid) {
    Outgoing(c.viewer, s.outbox, u).Some? || InQueue(s, u)
  }

  predicate Right(c: Conf, s: State, u: Uid) {
    Get(s.store, u) == Expected(c, s.table, u)
  }

  /** The catch-up has yet to reach the row. */
  predicate WillStream(c: Conf, s: State, u: Uid) {
    && s.phase.Paging? && s.phase.typeIndex < 6 && u in s.table
    && var ti := TypeIndex(s.table[u].ty);
       (s.phase.typeIndex < ti && Matches(StreamQuery(c, s, ti), s.table[u]))
       || (s.phase.typeIndex == ti && Matches(StreamQuery(c, s, ti), s.table[u])
           && Beyond(StreamQuery(c, s, ti), s.phase.cursor, s.table, u))
  }

  /** Only the overlay can make the row right. */
  predicate NeedsOverlay(c: Conf, s: State, u: Uid) {
    && u in s.table && !s.table[u].deleted && c.ent(u) == Full && HasOverlay(c.viewer)
    && s.table[u].mem != Some(s.table[u].full)
  }

  /** No overlay query emitted so far selects the row. */
  ghost predicate NotYetSelected(c: Conf, s: State, u: Uid) {
    s.phase.Overlay? && c.viewer.Some? ==>
      forall q :: QueryIndex(q) < s.phase.next ==> !Selects(q, c.viewer.value, s.table, u)
  }

  /** Every object is right, or on its way by one of the three channels. */
  ghost predicate Accounted(c: Conf, s: State, u: Uid) {
    || OnItsWay(c, s, u)
    || Right(c, s, u)
    || WillStream(c, s, u)
    || (NeedsOverlay(c, s, u) && !s.phase.Live? && NotYetSelected(c, s, u))
  }

  ghost predicate PhaseInv(c: Conf, s: State) {
    match s.phase
    case Paging(t, cursor) =>
      && t < 6 && (cursor.Some? ==> cursor.value.stamp <= s.clock)
      && (s.since.Some? ==> s.since.value <= s.clock)
      && (cursor.Some? && s.since.Some? ==> s.since.value < cursor.value.stamp)
    case Overlay(k) => k < 6 && HasOverlay(c.viewer)
    case _ => true
  }

  ghost predicate ConnectionInv(c: Conf, s: State) {
    && PhaseInv(c, s)
    && (!s.closed ==> QueueInv(c, s) && forall u :: Accounted(c, s, u))
  }

  ghost predicate Inv(c: Conf, s: State) {
    && TableInv(c, s)
    && OutboxInv(c, s)
    && (!s.phase.Offline? ==> ConnectionInv(c, s))
  }

  // ---- The outbox -------------------------------------------------------------------

  lemma {:induction false} OutgoingAppend(viewer: Option<Viewer>, a: seq<BroadcastData>, b: seq<BroadcastData>, u: Uid)
    ensures Outgoing(viewer, a + b, u)
         == (if Outgoing(viewer, b, u).Some? then Outgoing(viewer, b, u) else Outgoing(viewer, a, u))
  {
    if b == [] {
      assert a + b == a;
    } else {
      var n := |b| - 1;
      assert (a + b)[|a + b| - 1] == b[n] && (a + b)[..|a + b| - 1] == a + b[..n];
      OutgoingAppend(viewer, a, b[..n], u);
    }
  }

  lemma {:induction false} OutgoingNone(viewer: Option<Viewer>, a: seq<BroadcastData>, u: Uid)
    requires forall i :: 0 <= i < |a| ==> a[i].uid != u
    ensures Outgoing(viewer, a, u).None?
  {
    if a != [] {
      OutgoingNone(viewer, a[..|a| - 1], u);
    }
  }

  /** Broadcasting the oldest save of an object: what remains to be said about it is said by
      the rest of the outbox, or was said by that save. */
  lemma OutgoingWithout(viewer: Option<Viewer>, outbox: seq<BroadcastData>, i: nat, u: Uid)
    requires i < |outbox| && forall j :: 0 <= j < i ==> outbox[j].uid != outbox[i].uid
    ensures var rest := Outgoing(viewer, Without(outbox, i), u);
            Outgoing(viewer, outbox, u)
            == if rest.Some? || outbox[i].uid != u then rest else MessageFor(viewer, outbox[i])
  {
    var pre, mid, post := outbox[..i], [outbox[i]], outbox[i + 1..];
    assert outbox == pre + (mid + post) && Without(outbox, i) == pre + post;
    OutgoingAppend(viewer, pre, mid + post, u);
    OutgoingAppend(viewer, mid, post, u);
    OutgoingAppend(viewer, pre, post, u);
    assert mid[..0] == [];
    if outbox[i].uid == u {
      OutgoingNone(viewer, pre, u);
    }
  }

  lemma {:induction false} OutgoingNews(viewer: Option<Viewer>, news: seq<BroadcastData>, i: nat)
    requires i < |news| && forall j, k :: 0 <= j < k < |news| ==> news[j].uid != news[k].uid
    ensures Outgoing(viewer, news, news[i].uid) == MessageFor(viewer, news[i])
  {
    var n := |news| - 1;
    if i < n {
      OutgoingNews(viewer, news[..n], i);
    } else {
      OutgoingNone(viewer, news[..n], news[i].uid);
    }
  }
}

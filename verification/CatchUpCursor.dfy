/** A catch-up during which writes go on: each type is streamed from the tables of its own
    fetches, one type after another, and the newest stamp delivered becomes the cursor. */
module CatchUpCursor {
  import opened Base
  import opened AccessLevels
  import opened Entitlement
  import opened Frames
  import opened KeysetPaging
  import opened PullPush
  import opened Replication
  import opened SyncCursor

  /** One type's stream: the table at each fetch, and what was delivered. */
  datatype TypeStream = TypeStream(history: seq<Table>, delivered: seq<Delivery>)

  /** What `KeysetPaging.StreamObjects` promises of a stream that reached its end. */
  ghost predicate Streamed(q: Query, ts: TypeStream) {
    && ts.history != []
    && (forall i :: 0 <= i < |ts.history| - 1 ==> Evolves(ts.history[i], ts.history[i + 1]))
    && InOrder(ts.delivered)
    && Genuine(ts.delivered, q, ts.history, |ts.history|)
    && Covers(ts.delivered, q, End(ts), None)
  }

  /** The table at the type's last fetch. */
  function End(ts: TypeStream): Table
    requires ts.history != []
  {
    ts.history[|ts.history| - 1]
  }

  /** `table` is an earlier state of `over`: no row is gone or of another type, and none was
      stamped past the clock. */
  predicate Precedes(table: Table, over: Table, clock: nat) {
    forall u :: u in table ==> u in over && over[u].ty == table[u].ty && table[u].stamp <= clock
  }

  function FramesOf(delivered: seq<Delivery>): seq<Frame>
    decreases |delivered|
  {
    if delivered == [] then []
    else
      var d := delivered[|delivered| - 1];
      FramesOf(delivered[..|delivered| - 1]) + [Frame(d.key.uid, d.payload)]
  }

  /** Everything streamed, type after type. */
  function BaseFrames(streams: seq<TypeStream>): seq<Frame>
    decreases |streams|
  {
    if streams == [] then [] else BaseFrames(streams[..|streams| - 1]) + FramesOf(streams[|streams| - 1].delivered)
  }

  // ---- One type ---------------------------------------------------------------------

  /** Along a stream's tables a row's stamp never falls. */
  lemma {:induction false} StampsRise(history: seq<Table>, i: nat, j: nat, u: Uid)
    requires forall k :: 0 <= k < |history| - 1 ==> Evolves(history[k], history[k + 1])
    requires i <= j < |history| && u in history[i]
    ensures u in history[j] && history[i][u].stamp <= history[j][u].stamp
    decreases j
  {
    if i < j {
      StampsRise(history, i, j - 1, u);
      assert Evolves(history[j - 1], history[j - 1 + 1]);
    }
  }

  lemma {:induction false} LastDelivered(delivered: seq<Delivery>, u: Uid, k: nat)
    requires k < |delivered| && delivered[k].key.uid == u
    requires forall j :: k < j < |delivered| ==> delivered[j].key.uid != u
    ensures LastFor(FramesOf(delivered), u) == Some(delivered[k].payload)
    decreases |delivered|
  {
    var n := |delivered| - 1;
    var f := Frame(delivered[n].key.uid, delivered[n].payload);
    LastForAppend(FramesOf(delivered[..n]), [f], u);
    assert [f][..0] == [];
    if k < n {
      LastDelivered(delivered[..n], u, k);
    }
  }

  lemma {:induction false} NeverDelivered(delivered: seq<Delivery>, u: Uid)
    requires forall d :: d in delivered ==> d.key.uid != u
    ensures LastFor(FramesOf(delivered), u).None?
    decreases |delivered|
  {
    if delivered != [] {
      var n := |delivered| - 1;
      var f := Frame(delivered[n].key.uid, delivered[n].payload);
      NeverDelivered(delivered[..n], u);
      LastForAppend(FramesOf(delivered[..n]), [f], u);
      assert [f][..0] == [];
    }
  }

  /** A delivery of a row is no newer than the row at the last fetch. */
  lemma DeliveredVersion(q: Query, ts: TypeStream, d: Delivery)
    requires Streamed(q, ts) && d in ts.delivered
    ensures d.key.uid in End(ts) && d.key.stamp <= End(ts)[d.key.uid].stamp
    ensures q.since.Some? ==> q.since.value < d.key.stamp
  {
    var i :| 0 <= i < |ts.history| && Version(d, q, ts.history[i]);
    StampsRise(ts.history, i, |ts.history| - 1, d.key.uid);
  }

  /** The last frame of a stream about a row is the row's version at the last fetch. */
  lemma LastOfStream(q: Query, ts: TypeStream, u: Uid)
    requires Streamed(q, ts) && u in End(ts) && Matches(q, End(ts)[u])
    ensures LastFor(FramesOf(ts.delivered), u) == Some(StreamedPayload(q.level, u, End(ts)[u]))
  {
    var last := Delivery(KeyOf(End(ts), u), StreamedPayload(q.level, u, End(ts)[u]));
    var k :| 0 <= k < |ts.delivered| && ts.delivered[k] == last;
    forall j | k < j < |ts.delivered| ensures ts.delivered[j].key.uid != u {
      assert ts.delivered[j] in ts.delivered;
      DeliveredVersion(q, ts, ts.delivered[j]);
      KeyOrder(last.key, last.key);
      assert KeyLess(last.key, ts.delivered[j].key);
    }
    LastDelivered(ts.delivered, u, k);
  }

  /** A stream says nothing of a row of another type, or not past the cursor. */
  lemma SilentStream(q: Query, ts: TypeStream, over: Table, clock: nat, u: Uid)
    requires Streamed(q, ts) && forall i :: 0 <= i < |ts.history| ==> Precedes(ts.history[i], over, clock)
    requires u in over
    requires over[u].ty == q.ty ==> u !in End(ts) || (q.since.Some? && End(ts)[u].stamp <= q.since.value)
    ensures LastFor(FramesOf(ts.delivered), u).None?
  {
    forall d | d in ts.delivered ensures d.key.uid != u {
      DeliveredVersion(q, ts, d);
      var i :| 0 <= i < |ts.history| && Version(d, q, ts.history[i]);
    }
    NeverDelivered(ts.delivered, u);
  }

  // ---- The whole catch-up -----------------------------------------------------------

  /** Tables a connection reads, from `start`, whose stamps reach `t0`, to `over`, whose
      stamps reach `t1`. */
  ghost predicate Between(start: Table, t0: nat, table: Table, over: Table, t1: nat) {
    && Later(start, table, t0) && Precedes(table, over, t1)
    && forall u :: u in table ==> Sound(table[u])
  }

  /** The first `n` types were streamed to their ends. */
  ghost predicate StreamedTo(level: Level, since: Option<nat>, streams: seq<TypeStream>, n: nat) {
    n <= |streams| && n <= 6
    && forall i :: 0 <= i < n ==> Streamed(Query(STREAM_TYPES[i], level, since), streams[i])
  }

  /** The connection opens on `start`; the six types are streamed in order, each from the
      tables of its own fetches; the overlay is read last, from `over`. */
  ghost predicate CatchUp(c: Conf, since: Option<nat>, start: Table, t0: nat, streams: seq<TypeStream>,
                          over: Table, t1: nat) {
    && |streams| == 6 && BaseLevel(c) != Public
    && (since.Some? ==> since.value <= t0 <= t1)
    && Between(start, t0, over, over, t1)
    && StreamedTo(BaseLevel(c), since, streams, 6)
    && (forall i, j :: 0 <= i < 6 && 0 <= j < |streams[i].history| ==>
          Between(start, t0, streams[i].history[j], over, t1))
  }

  /** The row's version when the last page of its type was read. */
  function Paged(streams: seq<TypeStream>, row: Row, u: Uid): Option<Row> {
    var i := TypeIndex(row.ty);
    if i < |streams| && streams[i].history != [] then Get(End(streams[i]), u) else None
  }

  /** The payload last streamed about a row. */
  function Sent(level: Level, since: Option<nat>, streams: seq<TypeStream>, row: Row, u: Uid): Option<Dict> {
    var paged := Paged(streams, row, u);
    if paged.Some? && After(since, paged.value) then Some(StreamedPayload(level, u, paged.value)) else None
  }

  /** What the client shows of a row once caught up: its overlay copy, else what was last
      streamed, else what it showed before. */
  function Held(c: Conf, since: Option<nat>, store: Store, streams: seq<TypeStream>, over: Table, u: Uid): Option<Dict>
    requires u in over
  {
    var sent := Sent(BaseLevel(c), since, streams, over[u], u);
    if HasOverlay(c.viewer) && InOverlay(c.viewer.value, over, u) then Shown(over[u].full)
    else if sent.Some? then Shown(sent.value)
    else Get(store, u)
  }

  /** The last frame about an object is that of the one stream that mentions it. */
  lemma {:induction false} OneStreamSpeaks(streams: seq<TypeStream>, u: Uid, k: nat)
    requires forall i :: 0 <= i < |streams| && i != k ==> LastFor(FramesOf(streams[i].delivered), u).None?
    ensures LastFor(BaseFrames(streams), u)
         == if k < |streams| then LastFor(FramesOf(streams[k].delivered), u) else None
    decreases |streams|
  {
    if streams != [] {
      var n := |streams| - 1;
      OneStreamSpeaks(streams[..n], u, k);
      LastForAppend(BaseFrames(streams[..n]), FramesOf(streams[n].delivered), u);
    }
  }

  /** The last frame of one stream about a row of `over`. */
  lemma LastOfOne(q: Query, start: Table, t0: nat, ts: TypeStream, over: Table, t1: nat, u: Uid)
    requires q.level != Public && Streamed(q, ts) && u in over
    requires forall j :: 0 <= j < |ts.history| ==> Between(start, t0, ts.history[j], over, t1)
    ensures LastFor(FramesOf(ts.delivered), u)
         == if over[u].ty == q.ty && u in End(ts) && After(q.since, End(ts)[u])
            then Some(StreamedPayload(q.level, u, End(ts)[u])) else None
  {
    assert Between(start, t0, ts.history[|ts.history| - 1], over, t1);
    if over[u].ty == q.ty && u in End(ts) && After(q.since, End(ts)[u]) {
      StreamedAbovePublic(q.level, End(ts)[u]);
      LastOfStream(q, ts, u);
    } else {
      SilentStream(q, ts, over, t1, u);
    }
  }

  lemma StreamOf(c: Conf, since: Option<nat>, start: Table, t0: nat, streams: seq<TypeStream>,
                 over: Table, t1: nat, i: nat, u: Uid)
    requires CatchUp(c, since, start, t0, streams, over, t1) && i < 6 && u in over
    ensures LastFor(FramesOf(streams[i].delivered), u)
         == if TypeIndex(over[u].ty) == i then Sent(BaseLevel(c), since, streams, over[u], u) else None
  {
    LastOfOne(Query(STREAM_TYPES[i], BaseLevel(c), since), start, t0, streams[i], over, t1, u);
    TypesDiffer(i, TypeIndex(over[u].ty));
  }

  lemma TypesDiffer(i: nat, j: nat)
    requires i < 6 && j < 6
    ensures STREAM_TYPES[i] == STREAM_TYPES[j] ==> i == j
  {
  }

  lemma LastOfBase(c: Conf, since: Option<nat>, start: Table, t0: nat, streams: seq<TypeStream>,
                   over: Table, t1: nat, u: Uid)
    requires CatchUp(c, since, start, t0, streams, over, t1) && u in over
    ensures LastFor(BaseFrames(streams), u) == Sent(BaseLevel(c), since, streams, over[u], u)
  {
    forall i | 0 <= i < 6
      ensures LastFor(FramesOf(streams[i].delivered), u)
           == if TypeIndex(over[u].ty) == i then Sent(BaseLevel(c), since, streams, over[u], u) else None
    {
      StreamOf(c, since, start, t0, streams, over, t1, i, u);
    }
    OneStreamSpeaks(streams, u, TypeIndex(over[u].ty));
  }

  /** The client shows what `Held` says. */
  lemma HeldIsShown(c: Conf, since: Option<nat>, start: Table, t0: nat, streams: seq<TypeStream>, over: Table,
                    t1: nat, store: Store, overlay: seq<Frame>, u: Uid)
    requires CatchUp(c, since, start, t0, streams, over, t1) && u in over
    requires if HasOverlay(c.viewer) then CarriesOverlay(overlay, c.viewer.value, over) else overlay == []
    ensures Get(ApplyAll(ApplyAll(store, BaseFrames(streams)), overlay), u) == Held(c, since, store, streams, over, u)
  {
    var base := BaseFrames(streams);
    LastOfBase(c, since, start, t0, streams, over, t1, u);
    StoreFollowsLastFrame(store, base, u);
    if HasOverlay(c.viewer) && InOverlay(c.viewer.value, over, u) {
      assert Frame(u, over[u].full) in overlay;
      Mentioned(ApplyAll(store, base), overlay, u, over[u].full);
    } else {
      Unmentioned(ApplyAll(store, base), overlay, u);
    }
  }

  // ---- The cursor -------------------------------------------------------------------

  /** The timestamp of `sync_complete`: the newest stamp delivered; without one, the client
      keeps the cursor it came with. */
  ghost predicate NewestDelivered(cursor: Option<nat>, since: Option<nat>, streams: seq<TypeStream>) {
    && (forall i, d :: 0 <= i < |streams| && d in streams[i].delivered ==>
          cursor.Some? && d.key.stamp <= cursor.value)
    && (if forall i :: 0 <= i < |streams| ==> streams[i].delivered == [] then cursor == since
        else exists i, d :: 0 <= i < |streams| && d in streams[i].delivered && cursor == Some(d.key.stamp))
  }

  lemma NewestIsLast(delivered: seq<Delivery>, d: Delivery)
    requires InOrder(delivered) && d in delivered
    ensures d.key.stamp <= delivered[|delivered| - 1].key.stamp
  {
    var i :| 0 <= i < |delivered| && delivered[i] == d;
    if i < |delivered| - 1 {
      assert KeyLess(delivered[i].key, delivered[|delivered| - 1].key);
    }
  }

  /** What `StreamObjects` delivers is a stream in the sense above. */
  lemma IsStreamed(q: Query, history: seq<Table>, fetches: nat, delivered: seq<Delivery>)
    requires 0 < fetches <= |history| && forall i :: 0 <= i < |history| - 1 ==> Evolves(history[i], history[i + 1])
    requires InOrder(delivered) && Genuine(delivered, q, history, fetches)
    requires Covers(delivered, q, history[fetches - 1], None)
    ensures Streamed(q, TypeStream(history[..fetches], delivered))
  {
    var cut := history[..fetches];
    forall d | d in delivered ensures exists i :: 0 <= i < |cut| && Version(d, q, cut[i]) {
      var i :| 0 <= i < fetches && Version(d, q, history[i]);
      assert cut[i] == history[i];
    }
  }

  /** Nothing was delivered yet, or the newest stamp of what was is kept. */
  ghost predicate NewestSoFar(newest: Option<nat>, since: Option<nat>, streams: seq<TypeStream>) {
    if newest.None? then forall i :: 0 <= i < |streams| ==> streams[i].delivered == []
    else NewestDelivered(newest, since, streams) && exists i :: 0 <= i < |streams| && streams[i].delivered != []
  }

  lemma NewestExtends(newest: Option<nat>, last: Option<nat>, since: Option<nat>, streams: seq<TypeStream>,
                      ts: TypeStream)
    requires InOrder(ts.delivered) && NewestSoFar(newest, since, streams)
    requires last == if ts.delivered == [] then None else Some(ts.delivered[|ts.delivered| - 1].key.stamp)
    ensures var next := if last.Some? && (newest.None? || newest.value < last.value) then last else newest;
            NewestSoFar(next, since, streams + [ts])
  {
    var longer := streams + [ts];
    if last.Some? {
      assert longer[|streams|] == ts && ts.delivered[|ts.delivered| - 1] in ts.delivered;
      forall d | d in ts.delivered ensures d.key.stamp <= last.value {
        NewestIsLast(ts.delivered, d);
      }
    }
    if newest.Some? {
      var j, d :| 0 <= j < |streams| && d in streams[j].delivered && newest == Some(d.key.stamp);
      assert longer[j] == streams[j];
    }
  }

  predicate Rising(history: seq<Table>) {
    forall i :: 0 <= i < |history| - 1 ==> Evolves(history[i], history[i + 1])
  }

  method StreamOne(q: Query, batchSize: nat, history: seq<Table>)
    returns (ts: TypeStream, newest: Option<nat>, done: bool)
    requires 0 < batchSize && Rising(history)
    ensures InOrder(ts.delivered) && ts.history <= history
    ensures newest == if ts.delivered == [] then None else Some(ts.delivered[|ts.delivered| - 1].key.stamp)
    ensures done ==> Streamed(q, ts)
  {
    var delivered, last, fetches, reached := StreamObjects(q, batchSize, history);
    if reached {
      IsStreamed(q, history, fetches, delivered);
    }
    ts, newest, done := TypeStream(history[..fetches], delivered), last, reached;
  }

  /** Streams type after type and keeps the newest stamp. `histories[i]` are the tables the
      fetches of the i-th type read; `done` says that every stream reached its end. */
  method StreamAll(level: Level, since: Option<nat>, batchSize: nat, histories: seq<seq<Table>>)
    returns (streams: seq<TypeStream>, cursor: Option<nat>, done: bool)
    requires 0 < batchSize && |histories| == 6 && forall i :: 0 <= i < 6 ==> Rising(histories[i])
    ensures |streams| == 6 && NewestDelivered(cursor, since, streams)
    ensures done ==> StreamedTo(level, since, streams, 6)
    ensures forall i :: 0 <= i < 6 ==> streams[i].history <= histories[i]
  {
    var newest: Option<nat> := None;
    streams, done := [], true;
    for i := 0 to 6
      invariant |streams| == i && forall j :: 0 <= j < i ==> streams[j].history <= histories[j]
      invariant done ==> StreamedTo(level, since, streams, i)
      invariant NewestSoFar(newest, since, streams)
    {
      var ts, last, reached := StreamOne(Query(STREAM_TYPES[i], level, since), batchSize, histories[i]);
      NewestExtends(newest, last, since, streams, ts);
      streams := streams + [ts];
      done := done && reached;
      if last.Some? && (newest.None? || newest.value < last.value) {
        newest := last;
      }
    }
    cursor := if newest.Some? then newest else since;
  }

  /** One of the two projections of a row that a store may hold under an honest cursor. */
  predicate Acceptable(c: Conf, u: Uid, row: Row, shown: Option<Dict>) {
    shown == ShownColumn(Column(row, BaseLevel(c))) || shown == ShownColumn(Column(row, c.ent(u)))
  }

  /** A row rewritten after its type's last page, with a stamp the cursor passes, that the
      client shows in neither projection, and that no write has touched since. */
  ghost predicate Missed(c: Conf, since: Option<nat>, store: Store, streams: seq<TypeStream>, over: Table,
                         cursor: Option<nat>, later: Table, u: Uid) {
    && u in over && Get(later, u) == Some(over[u]) && cursor.Some? && over[u].stamp <= cursor.value
    && Paged(streams, over[u], u) != Some(over[u])
    && !Acceptable(c, u, over[u], Held(c, since, store, streams, over, u))
  }

  /** A row left alone since its type's last page is shown right. */
  lemma UnwrittenIsRight(c: Conf, since: Option<nat>, start: Table, t0: nat, streams: seq<TypeStream>, over: Table,
                         t1: nat, store: Store, u: Uid)
    requires CatchUp(c, since, start, t0, streams, over, t1) && Honest(c, store, start, since)
    requires Entitled(c, over) && u in over && Paged(streams, over[u], u) == Some(over[u])
    ensures Acceptable(c, u, over[u], Held(c, since, store, streams, over, u))
  {
    if HasOverlay(c.viewer) && InOverlay(c.viewer.value, over, u) {
      var q :| Selects(q, c.viewer.value, over, u);
      OverlayIsEntitled(c.viewer.value, over, u, q);
    } else if !After(since, over[u]) {
      assert Between(start, t0, over, over, t1);
      assert u in start && start[u] == over[u];
    }
  }

  /** Nothing outside the table is streamed. */
  lemma StrangerUnsent(c: Conf, since: Option<nat>, start: Table, t0: nat, streams: seq<TypeStream>,
                       over: Table, t1: nat, u: Uid)
    requires CatchUp(c, since, start, t0, streams, over, t1) && u !in over
    ensures LastFor(BaseFrames(streams), u).None?
  {
    forall i | 0 <= i < 6 ensures LastFor(FramesOf(streams[i].delivered), u).None? {
      var q, ts := Query(STREAM_TYPES[i], BaseLevel(c), since), streams[i];
      assert Between(start, t0, ts.history[|ts.history| - 1], over, t1);
      forall d | d in ts.delivered ensures d.key.uid != u {
        DeliveredVersion(q, ts, d);
      }
      NeverDelivered(ts.delivered, u);
    }
    OneStreamSpeaks(streams, u, 6);
  }

  lemma StrangerUnheld(c: Conf, since: Option<nat>, start: Table, t0: nat, streams: seq<TypeStream>, over: Table,
                       t1: nat, store: Store, overlay: seq<Frame>, u: Uid)
    requires CatchUp(c, since, start, t0, streams, over, t1) && Honest(c, store, start, since) && u !in over
    requires if HasOverlay(c.viewer) then CarriesOverlay(overlay, c.viewer.value, over) else overlay == []
    ensures u !in ApplyAll(ApplyAll(store, BaseFrames(streams)), overlay)
  {
    StrangerUnsent(c, since, start, t0, streams, over, t1, u);
    StoreFollowsLastFrame(store, BaseFrames(streams), u);
    Unmentioned(ApplyAll(store, BaseFrames(streams)), overlay, u);
    assert Between(start, t0, over, over, t1);
  }

  /** No delivered stamp, hence no cursor, is past the clock. */
  lemma CursorBounded(c: Conf, since: Option<nat>, start: Table, t0: nat, streams: seq<TypeStream>, over: Table,
                      t1: nat, cursor: Option<nat>)
    requires CatchUp(c, since, start, t0, streams, over, t1) && NewestDelivered(cursor, since, streams)
    ensures cursor.Some? ==> cursor.value <= t1
  {
    if !(forall i :: 0 <= i < |streams| ==> streams[i].delivered == []) {
      var i, d :| 0 <= i < |streams| && d in streams[i].delivered && cursor == Some(d.key.stamp);
      DeliveredVersion(Query(STREAM_TYPES[i], BaseLevel(c), since), streams[i], d);
      assert Between(start, t0, streams[i].history[|streams[i].history| - 1], over, t1);
    }
  }

  lemma MissedIff(c: Conf, since: Option<nat>, start: Table, t0: nat, streams: seq<TypeStream>, over: Table,
                  t1: nat, store: Store, overlay: seq<Frame>, cursor: Option<nat>, later: Table, u: Uid)
    requires CatchUp(c, since, start, t0, streams, over, t1) && Honest(c, store, start, since)
    requires if HasOverlay(c.viewer) then CarriesOverlay(overlay, c.viewer.value, over) else overlay == []
    requires Entitled(c, over) && u in over
    ensures Missed(c, since, store, streams, over, cursor, later, u)
       <==> Get(later, u) == Some(over[u]) && cursor.Some? && over[u].stamp <= cursor.value
            && !Acceptable(c, u, over[u], Get(ApplyAll(ApplyAll(store, BaseFrames(streams)), overlay), u))
  {
    HeldIsShown(c, since, start, t0, streams, over, t1, store, overlay, u);
    if Paged(streams, over[u], u) == Some(over[u]) {
      UnwrittenIsRight(c, since, start, t0, streams, over, t1, store, u);
    }
  }

  /** Exactly when the timestamp of `sync_complete` is a safe cursor, whatever was written
      while the types were streamed one after another, and whatever is written later: no row
      was rewritten behind its type's last page, under a stamp the cursor passes, into
      something the client does not show. */
  lemma CursorIsHonestIff(c: Conf, since: Option<nat>, start: Table, t0: nat, streams: seq<TypeStream>, over: Table,
                          t1: nat, store: Store, overlay: seq<Frame>, cursor: Option<nat>, later: Table)
    requires CatchUp(c, since, start, t0, streams, over, t1) && Honest(c, store, start, since)
    requires if HasOverlay(c.viewer) then CarriesOverlay(overlay, c.viewer.value, over) else overlay == []
    requires Entitled(c, over) && NewestDelivered(cursor, since, streams)
    requires Later(over, later, t1) && forall u :: u in later ==> Sound(later[u])
    ensures Honest(c, ApplyAll(ApplyAll(store, BaseFrames(streams)), overlay), later, cursor)
       <==> forall u :: !Missed(c, since, store, streams, over, cursor, later, u)
  {
    var end := ApplyAll(ApplyAll(store, BaseFrames(streams)), overlay);
    CursorBounded(c, since, start, t0, streams, over, t1, cursor);
    forall u ensures u in end ==> u in over {
      if u !in over {
        StrangerUnheld(c, since, start, t0, streams, over, t1, store, overlay, u);
      }
    }
    forall u | u in over
      ensures Missed(c, since, store, streams, over, cursor, later, u)
         <==> Get(later, u) == Some(over[u]) && cursor.Some? && over[u].stamp <= cursor.value
              && !Acceptable(c, u, over[u], Get(end, u))
    {
      MissedIff(c, since, start, t0, streams, over, t1, store, overlay, cursor, later, u);
    }
    HonestIffAcceptable(c, end, over, later, t1, cursor);
  }

  /** Above the public level a cursor answers for the rows left alone since, and no others. */
  lemma HonestIffAcceptable(c: Conf, end: Store, over: Table, later: Table, clock: nat, cursor: Option<nat>)
    requires BaseLevel(c) != Public && Later(over, later, clock) && (cursor.Some? ==> cursor.value <= clock)
    requires forall u :: u in end ==> u in over
    requires forall u :: u in later ==> Sound(later[u])
    ensures Honest(c, end, later, cursor)
       <==> forall u :: u in over && Get(later, u) == Some(over[u]) && cursor.Some? && over[u].stamp <= cursor.value ==>
                          Acceptable(c, u, over[u], Get(end, u))
  {
    forall u | u in later ensures Streams(BaseLevel(c), later[u]) {
      StreamedAbovePublic(BaseLevel(c), later[u]);
    }
  }

  // ---- A cursor that is not safe ----------------------------------------------------

  /** A stream read in one fetch. */
  lemma OneFetch(q: Query, table: Table, delivered: seq<Delivery>)
    requires InOrder(delivered) && (forall d :: d in delivered ==> Version(d, q, table))
    requires Covers(delivered, q, table, None)
    ensures Streamed(q, TypeStream([table], delivered))
  {
    var history := [table];
    forall d | d in delivered ensures exists i :: 0 <= i < 1 && Version(d, q, history[i]) {
      assert Version(d, q, history[0]);
    }
  }

  /** An IC reads everything in full. */
  const REFEREE: Conf := Conf(Some(Viewer("v", {IC}, None, Some("1"))), (u: Uid) => Full, 2, 30)

  /** The users are paged from `start`, then one of them is rewritten and a tournament saved,
      and the tournaments and the rest are paged from `over`. */
  function Overtaken(start: Table, over: Table, user: Row, event: Row): seq<TypeStream> {
    [TypeStream([start], [Delivery(Key(user.stamp, "u"), user.full)]), TypeStream([start], []),
     TypeStream([over], [Delivery(Key(event.stamp, "t"), event.full)]), TypeStream([over], []),
     TypeStream([over], []), TypeStream([over], [])]
  }

  predicate OvertakenRows(user: Row, rewritten: Row, event: Row) {
    && Sound(user) && Sound(rewritten) && Sound(event)
    && user.ty == rewritten.ty == USER && event.ty == TOURNAMENT
    && user.stamp == 1 && rewritten.stamp == 2 && event.stamp == 3
    && Shown(user.full) != Shown(rewritten.full)
  }

  lemma OvertakenStreams(user: Row, rewritten: Row, event: Row, i: nat)
    requires OvertakenRows(user, rewritten, event) && i < 6
    ensures var start, over := map["u" := user], map["u" := rewritten, "t" := event];
            Streamed(Query(STREAM_TYPES[i], Full, None), Overtaken(start, over, user, event)[i])
  {
    var start, over := map["u" := user], map["u" := rewritten, "t" := event];
    var ts := Overtaken(start, over, user, event)[i];
    OneFetch(Query(STREAM_TYPES[i], Full, None), ts.history[0], ts.delivered);
  }

  /** One fetch a type, each from the first table or the last. */
  lemma OneFetchEach(c: Conf, since: Option<nat>, start: Table, t0: nat, streams: seq<TypeStream>, over: Table, t1: nat)
    requires |streams| == 6 && BaseLevel(c) != Public && (since.Some? ==> since.value <= t0 <= t1)
    requires Between(start, t0, start, over, t1) && Between(start, t0, over, over, t1)
    requires forall i :: 0 <= i < 6 ==> Streamed(Query(STREAM_TYPES[i], BaseLevel(c), since), streams[i])
    requires forall i :: 0 <= i < 6 ==> streams[i].history == [start] || streams[i].history == [over]
    ensures CatchUp(c, since, start, t0, streams, over, t1)
  {
  }

  lemma OvertakenBetween(user: Row, rewritten: Row, event: Row, start: Table, over: Table)
    requires OvertakenRows(user, rewritten, event)
    requires start == map["u" := user] && over == map["u" := rewritten, "t" := event]
    ensures Between(start, 1, start, over, 3) && Between(start, 1, over, over, 3)
  {
  }

  lemma OvertakenCatchUp(user: Row, rewritten: Row, event: Row, start: Table, over: Table, streams: seq<TypeStream>)
    requires OvertakenRows(user, rewritten, event)
    requires start == map["u" := user] && over == map["u" := rewritten, "t" := event]
    requires streams == Overtaken(start, over, user, event)
    ensures CatchUp(REFEREE, None, start, 1, streams, over, 3)
  {
    forall i | 0 <= i < 6
      ensures Streamed(Query(STREAM_TYPES[i], BaseLevel(REFEREE), None), streams[i])
    {
      OvertakenStreams(user, rewritten, event, i);
    }
    OvertakenBetween(user, rewritten, event, start, over);
    OneFetchEach(REFEREE, None, start, 1, streams, over, 3);
  }

  lemma OvertakenNewest(user: Row, event: Row, start: Table, over: Table)
    requires user.stamp == 1 && event.stamp == 3
    ensures NewestDelivered(Some(3), None, Overtaken(start, over, user, event))
  {
    var streams := Overtaken(start, over, user, event);
    assert Delivery(Key(3, "t"), event.full) in streams[2].delivered;
  }

  lemma OvertakenMissed(user: Row, rewritten: Row, event: Row, start: Table, over: Table, streams: seq<TypeStream>)
    requires OvertakenRows(user, rewritten, event) && |streams| == 6 && streams[0].history == [start]
    requires start == map["u" := user] && over == map["u" := rewritten, "t" := event]
    ensures Missed(REFEREE, None, map[], streams, over, Some(3), over, "u")
  {
    assert TypeIndex(USER) == 0;
    assert Paged(streams, rewritten, "u") == Some(user);
  }

  /** One missed row spoils the cursor. */
  lemma MissedSpoils(c: Conf, start: Table, t0: nat, streams: seq<TypeStream>, over: Table, t1: nat,
                     cursor: Option<nat>, u: Uid)
    requires CatchUp(c, None, start, t0, streams, over, t1) && NewestDelivered(cursor, None, streams)
    requires Entitled(c, over) && !HasOverlay(c.viewer)
    requires Missed(c, None, map[], streams, over, cursor, over, u)
    ensures Honest(c, map[], start, None)
    ensures !Honest(c, ApplyAll(ApplyAll(map[], BaseFrames(streams)), []), over, cursor)
  {
    assert Between(start, t0, over, over, t1);
    CursorIsHonestIff(c, None, start, t0, streams, over, t1, map[], [], cursor, over);
  }

  lemma RefereeEntitled(over: Table)
    ensures Entitled(REFEREE, over) && !HasOverlay(REFEREE.viewer)
  {
  }

  /** The failure occurs: a user is rewritten after the users are paged and before a
      tournament is saved; the tournament's stamp becomes the cursor, and the client was
      never sent the rewritten user. */
  lemma CursorOvertakes(user: Row, rewritten: Row, event: Row, start: Table, over: Table, streams: seq<TypeStream>)
    requires OvertakenRows(user, rewritten, event)
    requires start == map["u" := user] && over == map["u" := rewritten, "t" := event]
    requires streams == Overtaken(start, over, user, event)
    ensures CatchUp(REFEREE, None, start, 1, streams, over, 3) && NewestDelivered(Some(3), None, streams)
    ensures Honest(REFEREE, map[], start, None)
    ensures !Honest(REFEREE, ApplyAll(ApplyAll(map[], BaseFrames(streams)), []), over, Some(3))
  {
    OvertakenCatchUp(user, rewritten, event, start, over, streams);
    OvertakenNewest(user, event, start, over);
    OvertakenMissed(user, rewritten, event, start, over, streams);
    RefereeEntitled(over);
    MissedSpoils(REFEREE, start, 1, streams, over, 3, Some(3), "u");
  }
}

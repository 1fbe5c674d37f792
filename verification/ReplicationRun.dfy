/** A member's run of the protocol that goes through catch-up, overlay, coalescing and drain
    and ends at rest: the theorem about such runs is about something. On its way it also shows
    the newest `ts` applied to be no safe cursor. */
module ReplicationRun {
  import opened Base
  import opened AccessLevels
  import opened Entitlement
  import opened Frames
  import opened KeysetPaging
  import opened CoalescingQueues
  import opened Replication
  import opened ReplicationProof
  import opened LiveCursor

  const VIEWER: Viewer := Viewer("v", {}, None, Some("1"))

  /** A member: entitled in full to the own profile, at member level to the rest. */
  const MEMBER: Conf := Conf(Some(VIEWER), (u: Uid) => if u == "v" then Full else Member, 2, 30)

  // ---- Steps of a quiet corpus ------------------------------------------------------

  /** A corpus of the viewer's profile and promos. */
  predicate Plain(table: Table) {
    forall u :: u in table ==> Sound(table[u]) && table[u].ty == if u == "v" then USER else PROMO
  }

  ghost predicate Eventful(table: Table) {
    forall u :: u in table ==> HasEvent(table, table[u])
  }

  lemma PlainEntitled(table: Table)
    requires Plain(table)
    ensures Entitled(MEMBER, table) && Eventful(table)
  {
  }

  lemma PlainSelects(table: Table, q: OverlayQuery, u: Uid)
    requires Plain(table)
    ensures Selects(q, VIEWER, table, u) <==> q == OwnProfile && u == "v" && u in table
  {
  }

  lemma NewsOfOne(before: Table, after: Table, u: Uid)
    requires u in after
    ensures Announces([SaveObject(before, after, u)], before, after, {u})
  {
    var news := [SaveObject(before, after, u)];
    assert news[0].uid == u;
  }

  /** What a transaction of one row has to meet. */
  ghost predicate Writable(c: Conf, s: State, after: Table, u: Uid, row: Row) {
    && Saved(row) && s.clock < row.stamp && (u in s.table ==> s.table[u].ty == row.ty)
    && after == s.table + map[u := row] && Entitled(c, after) && Eventful(after)
  }

  lemma CommitsOne(c: Conf, s: State, after: Table, u: Uid, row: Row, news: seq<BroadcastData>)
    requires Writable(c, s, after, u, row) && Announces(news, s.table, after, {u})
    ensures Commit(c, s, s.(table := after, clock := row.stamp, outbox := s.outbox + news), map[u := row], news)
  {
    assert map[u := row].Keys == {u};
  }

  lemma Saves(c: Conf, s: State, after: Table, u: Uid, row: Row)
    requires Writable(c, s, after, u, row)
    ensures Commit(c, s, s.(table := after, clock := row.stamp, outbox := s.outbox + [SaveObject(s.table, after, u)]),
                   map[u := row], [SaveObject(s.table, after, u)])
  {
    NewsOfOne(s.table, after, u);
    CommitsOne(c, s, after, u, row, [SaveObject(s.table, after, u)]);
  }

  lemma TellsNobody(s: State, s': State)
    requires |s.outbox| == 1 && s.phase.Offline? && s' == s.(outbox := [])
    ensures Broadcast(MEMBER, s, s', 0)
  {
    assert Replication.Without(s.outbox, 0) == [];
  }

  lemma Connects(s: State, s': State)
    requires s.phase.Offline? && s.store == map[] && s.queue == [] && s.seqNo == 0 && !s.closed
    requires Plain(s.table) && s' == s.(phase := Paging(0, None), since := None)
    ensures Connect(MEMBER, s, s')
  {
  }

  lemma FetchesProfile(s: State, s': State)
    requires s.phase == Paging(0, None) && s.since == None && Plain(s.table) && "v" in s.table
    requires s.table["v"].mem.Some?
    requires s' == s.(phase := Paging(1, None), store := ApplyAll(s.store, [Frame("v", s.table["v"].mem.value)]))
    ensures FetchBatch(MEMBER, s, s', ["v"], [Frame("v", s.table["v"].mem.value)])
  {
    assert IsPage(StreamQuery(MEMBER, s, 0), None, 2, s.table, ["v"]);
  }

  lemma FetchesNothing(s: State, s': State, i: nat)
    requires i < 6 && s.phase == Paging(i, None) && forall u :: u in s.table ==> s.table[u].ty != STREAM_TYPES[i]
    requires s' == s.(phase := AfterType(MEMBER, i))
    ensures FetchBatch(MEMBER, s, s', [], [])
  {
    assert IsPage(StreamQuery(MEMBER, s, i), None, 2, s.table, []);
  }

  lemma OverlaysProfile(s: State, s': State)
    requires s.phase == Overlay(0) && Plain(s.table) && "v" in s.table
    requires s' == s.(phase := Overlay(1), store := ApplyAll(s.store, [Frame("v", s.table["v"].full)]))
    ensures EmitOverlay(MEMBER, s, s', [Frame("v", s.table["v"].full)])
  {
    var frames := [Frame("v", s.table["v"].full)];
    forall u ensures Selects(OwnProfile, VIEWER, s.table, u) <==> u == "v" {
      PlainSelects(s.table, OwnProfile, u);
    }
    assert frames[0] in frames;
  }

  lemma OverlaysNothing(s: State, s': State, i: nat)
    requires 0 < i < 6 && s.phase == Overlay(i) && Plain(s.table)
    requires s' == s.(phase := if i < 5 then Overlay(i + 1) else Live)
    ensures EmitOverlay(MEMBER, s, s', [])
  {
    assert OVERLAY_QUERIES[i] != OwnProfile;
    forall u ensures !Selects(OVERLAY_QUERIES[i], VIEWER, s.table, u) {
      PlainSelects(s.table, OVERLAY_QUERIES[i], u);
    }
  }

  lemma PromoMessage(before: Table, table: Table, u: Uid)
    requires u in table && Plain(table) && u != "v"
    ensures MessageFor(Some(VIEWER), SaveObject(before, table, u)) == table[u].mem
  {
    PlainEntitled(table);
  }

  /** A promo's save is queued at member level. */
  lemma Queues(s: State, s': State, u: Uid, before: Table)
    requires u in s.table && s.outbox == [SaveObject(before, s.table, u)] && Plain(s.table) && u != "v"
    requires s.phase.Live? && !s.closed && |s.queue| < 30 && s.table[u].mem.Some?
    requires s' == s.(outbox := [], queue := Placed(s.queue, Slot(Of(u), Object(Frame(u, s.table[u].mem.value)))))
    ensures Broadcast(MEMBER, s, s', 0)
  {
    PromoMessage(before, s.table, u);
    assert Replication.Without(s.outbox, 0) == [];
  }

  // ---- The run ----------------------------------------------------------------------

  /** The viewer's profile; a promo, another one, and the first one saved again. */
  datatype Cast = Cast(own: Row, first: Row, other: Row, second: Row)

  function NameOf(n: nat): Uid {
    if n == 1 then "v" else if n == 3 then "q" else "p"
  }

  function RowOf(k: Cast, n: nat): Row {
    if n == 1 then k.own else if n == 2 then k.first else if n == 3 then k.other else k.second
  }

  ghost predicate AllSaved(k: Cast) {
    forall n :: 0 < n <= 4 ==> Saved(RowOf(k, n))
  }

  /** Saved one after another, the other promo not as deleted. */
  ghost predicate Storable(k: Cast) {
    && AllSaved(k) && !k.other.deleted
    && forall n :: 0 < n <= 4 ==> RowOf(k, n).stamp == n && RowOf(k, n).ty == if n == 1 then USER else PROMO
  }

  /** The table after `n` saves. */
  function TableOf(k: Cast, n: nat): Table {
    if n == 0 then map[] else TableOf(k, n - 1) + map[NameOf(n) := RowOf(k, n)]
  }

  function News(k: Cast, n: nat): seq<BroadcastData>
    requires 0 < n
  {
    [SaveObject(TableOf(k, n - 1), TableOf(k, n), NameOf(n))]
  }

  function FrameOf(k: Cast, n: nat): Frame {
    Frame(NameOf(n), StreamedPayload(Member, NameOf(n), RowOf(k, n)))
  }

  function SlotOf(k: Cast, n: nat): Slot<Uid, Message> {
    Slot(Of(NameOf(n)), Object(FrameOf(k, n)))
  }

  /** The queue once `n` saves are broadcast: the second save of a promo replaces the first
      one in place, ahead of the other promo's. */
  function QueueOf(k: Cast, n: nat): seq<Slot<Uid, Message>> {
    if n <= 1 then [] else if n == 2 then [SlotOf(k, 2)]
    else if n == 3 then [SlotOf(k, 2), SlotOf(k, 3)] else [SlotOf(k, 4), SlotOf(k, 3)]
  }

  function Streamed(k: Cast): Store {
    ApplyAll(map[], [FrameOf(k, 1)])
  }

  function Laid(k: Cast): Store {
    ApplyAll(Streamed(k), [Frame("v", k.own.full)])
  }

  /** After `n` saves. */
  function At(k: Cast, n: nat, phase: Phase, store: Store): State {
    GENESIS.(table := TableOf(k, n), clock := n, phase := phase, store := store)
  }

  function CatchingUp(k: Cast, i: nat): State {
    if i < 6 then At(k, 1, Paging(i, None), if i == 0 then map[] else Streamed(k))
    else if i < 12 then At(k, 1, Overlay(i - 6), if i == 6 then Streamed(k) else Laid(k))
    else Busy(k, 1)
  }

  function Busy(k: Cast, n: nat): State {
    At(k, n, Live, Laid(k)).(queue := QueueOf(k, n))
  }

  function Writing(k: Cast, n: nat): State
    requires 0 < n
  {
    At(k, n, Live, Laid(k)).(queue := QueueOf(k, n - 1), outbox := News(k, n))
  }

  function Relayed(k: Cast, n: nat): State {
    if n == 1 then Busy(k, 4).(queue := [SlotOf(k, 3)], store := Apply(Laid(k), FrameOf(k, 4)))
    else Busy(k, 4).(queue := [], store := Apply(Apply(Laid(k), FrameOf(k, 4)), FrameOf(k, 3)))
  }

  /** Before the connection: the profile is saved, then broadcast to nobody. */
  function Opening(k: Cast): seq<State> {
    [GENESIS, At(k, 1, Offline, map[]).(outbox := News(k, 1)), At(k, 1, Offline, map[])]
  }

  lemma PlainExtends(table: Table, u: Uid, row: Row)
    requires Plain(table) && Sound(row) && row.ty == if u == "v" then USER else PROMO
    ensures Plain(table + map[u := row])
  {
  }

  predicate Stamped(table: Table, clock: nat) {
    forall u :: u in table ==> table[u].stamp <= clock
  }

  predicate Fits(k: Cast, n: nat) {
    var row := RowOf(k, n);
    Sound(row) && row.mem.Some? && row.stamp == n && row.ty == if NameOf(n) == "v" then USER else PROMO
  }

  predicate AllFit(k: Cast) {
    forall n :: 0 < n <= 4 ==> Fits(k, n)
  }

  lemma CastFits(k: Cast, n: nat)
    requires Storable(k) && 0 < n <= 4
    ensures Fits(k, n)
  {
    SavedIsSound(RowOf(k, n));
  }

  lemma {:induction false} TablePlain(k: Cast, n: nat)
    requires AllFit(k) && n <= 4
    ensures Plain(TableOf(k, n)) && Stamped(TableOf(k, n), n)
    decreases n
  {
    if 0 < n {
      assert Fits(k, n);
      TablePlain(k, n - 1);
      PlainExtends(TableOf(k, n - 1), NameOf(n), RowOf(k, n));
    }
  }

  lemma PlainWritable(s: State, after: Table, u: Uid, row: Row)
    requires Plain(s.table) && Plain(after) && after == s.table + map[u := row]
    requires Saved(row) && s.clock < row.stamp
    ensures Writable(MEMBER, s, after, u, row)
  {
    PlainEntitled(after);
    assert after[u] == row;
  }

  /** Saving one row is a step. */
  lemma SaveIsNext(c: Conf, s: State, after: Table, u: Uid, row: Row, news: seq<BroadcastData>)
    requires Writable(c, s, after, u, row) && s.outbox == [] && news == [SaveObject(s.table, after, u)]
    ensures NextOf(c)(s, s.(table := after, clock := row.stamp, outbox := news))
  {
    Saves(c, s, after, u, row);
    assert s.outbox + news == news;
    CommitIsNext(c, s, s.(table := after, clock := row.stamp, outbox := news), map[u := row], news);
  }

  lemma PlainSave(s: State, after: Table, u: Uid, row: Row, news: seq<BroadcastData>)
    requires Plain(s.table) && Plain(after) && after == s.table + map[u := row]
    requires Saved(row) && s.clock < row.stamp && s.outbox == [] && news == [SaveObject(s.table, after, u)]
    ensures NextOf(MEMBER)(s, s.(table := after, clock := row.stamp, outbox := news))
  {
    PlainWritable(s, after, u, row);
    SaveIsNext(MEMBER, s, after, u, row, news);
  }

  lemma SaveFits(k: Cast, n: nat)
    requires AllFit(k) && 0 < n <= 4
    ensures Plain(TableOf(k, n - 1)) && Plain(TableOf(k, n)) && RowOf(k, n).stamp == n
    ensures TableOf(k, n) == TableOf(k, n - 1) + map[NameOf(n) := RowOf(k, n)]
  {
    assert Fits(k, n);
    TablePlain(k, n - 1);
    TablePlain(k, n);
  }

  lemma SavingStep(k: Cast, s: State, n: nat)
    requires AllFit(k) && Saved(RowOf(k, n)) && s.outbox == []
    requires 0 < n <= 4 && s.table == TableOf(k, n - 1) && s.clock == n - 1
    ensures NextOf(MEMBER)(s, s.(table := TableOf(k, n), clock := n, outbox := News(k, n)))
  {
    SaveFits(k, n);
    PlainSave(s, TableOf(k, n), NameOf(n), RowOf(k, n), News(k, n));
  }

  // ---- Every step of the run --------------------------------------------------------

  lemma QueuePlaced(k: Cast, n: nat)
    requires 2 <= n <= 4
    ensures Placed(QueueOf(k, n - 1), SlotOf(k, n)) == QueueOf(k, n) && |QueueOf(k, n - 1)| < 30
  {
    if n == 3 {
      PlacedAt(QueueOf(k, 2), SlotOf(k, 3), 1);
    } else if n == 4 {
      PlacedAt(QueueOf(k, 3), SlotOf(k, 4), 0);
    }
  }

  lemma QueueingStep(k: Cast, n: nat)
    requires AllFit(k) && 2 <= n <= 4
    ensures NextOf(MEMBER)(Writing(k, n), Busy(k, n))
  {
    SaveFits(k, n);
    assert Fits(k, n);
    QueuePlaced(k, n);
    Queues(Writing(k, n), Busy(k, n), NameOf(n), TableOf(k, n - 1));
    BroadcastIsNext(MEMBER, Writing(k, n), Busy(k, n), 0);
  }

  lemma OpeningSteps(k: Cast)
    requires AllFit(k) && Saved(k.own)
    ensures Chain(NextOf(MEMBER), Opening(k))
  {
    var states := Opening(k);
    assert RowOf(k, 1) == k.own;
    SavingStep(k, states[0], 1);
    TellsNobody(states[1], states[2]);
    BroadcastIsNext(MEMBER, states[1], states[2], 0);
    Three(NextOf(MEMBER), states[0], states[1], states[2]);
  }

  lemma ConnectingStep(k: Cast)
    requires AllFit(k)
    ensures NextOf(MEMBER)(At(k, 1, Offline, map[]), CatchingUp(k, 0))
  {
    TablePlain(k, 1);
    Connects(At(k, 1, Offline, map[]), CatchingUp(k, 0));
    OtherIsNext(MEMBER, At(k, 1, Offline, map[]), CatchingUp(k, 0));
  }

  lemma OneRow(k: Cast, u: Uid)
    requires AllFit(k)
    ensures u in TableOf(k, 1) <==> u == "v"
    ensures TableOf(k, 1)["v"] == k.own && Plain(TableOf(k, 1))
    ensures k.own.mem.Some? && k.own.ty == USER
  {
    assert Fits(k, 1);
    TablePlain(k, 1);
    assert TableOf(k, 0) == map[];
  }

  lemma ProfilePage(k: Cast)
    requires AllFit(k) && k.own.mem.Some?
    ensures FetchBatch(MEMBER, CatchingUp(k, 0), CatchingUp(k, 1), ["v"], [Frame("v", k.own.mem.value)])
  {
    OneRow(k, "v");
    FetchesProfile(CatchingUp(k, 0), CatchingUp(k, 1));
  }

  lemma EmptyPage(k: Cast, i: nat)
    requires AllFit(k) && 0 < i < 6
    ensures FetchBatch(MEMBER, CatchingUp(k, i), CatchingUp(k, i + 1), [], [])
  {
    assert STREAM_TYPES[i] != USER;
    forall u | u in TableOf(k, 1) ensures TableOf(k, 1)[u].ty == USER {
      OneRow(k, u);
    }
    FetchesNothing(CatchingUp(k, i), CatchingUp(k, i + 1), i);
  }

  lemma FetchingStep(k: Cast, i: nat)
    requires AllFit(k) && i < 6
    ensures NextOf(MEMBER)(CatchingUp(k, i), CatchingUp(k, i + 1))
  {
    if i == 0 {
      OneRow(k, "v");
      ProfilePage(k);
      FetchIsNext(MEMBER, CatchingUp(k, 0), CatchingUp(k, 1), ["v"], [Frame("v", k.own.mem.value)]);
    } else {
      EmptyPage(k, i);
      FetchIsNext(MEMBER, CatchingUp(k, i), CatchingUp(k, i + 1), [], []);
    }
  }

  lemma OverlayStep(k: Cast, i: nat)
    requires AllFit(k) && i < 6
    ensures NextOf(MEMBER)(CatchingUp(k, i + 6), CatchingUp(k, i + 7))
  {
    var s, s' := CatchingUp(k, i + 6), CatchingUp(k, i + 7);
    OneRow(k, "v");
    if i == 0 {
      OverlaysProfile(s, s');
      OverlayIsNext(MEMBER, s, s', [Frame("v", s.table["v"].full)]);
    } else {
      OverlaysNothing(s, s', i);
      OverlayIsNext(MEMBER, s, s', []);
    }
  }

  lemma RelaysFirst(k: Cast)
    ensures Relay(Busy(k, 4), Relayed(k, 1))
  {
    assert Busy(k, 4).queue[1..] == [SlotOf(k, 3)];
  }

  lemma RelaysSecond(k: Cast)
    ensures Relay(Relayed(k, 1), Relayed(k, 2))
  {
    assert Relayed(k, 1).queue[1..] == [];
  }

  lemma RelayingSteps(k: Cast)
    ensures NextOf(MEMBER)(Busy(k, 4), Relayed(k, 1)) && NextOf(MEMBER)(Relayed(k, 1), Relayed(k, 2))
  {
    RelaysFirst(k);
    OtherIsNext(MEMBER, Busy(k, 4), Relayed(k, 1));
    RelaysSecond(k);
    OtherIsNext(MEMBER, Relayed(k, 1), Relayed(k, 2));
  }

  lemma WritingStep(k: Cast, n: nat)
    requires AllFit(k) && Saved(RowOf(k, n)) && 2 <= n <= 4
    ensures NextOf(MEMBER)(Busy(k, n - 1), Writing(k, n))
  {
    SavingStep(k, Busy(k, n - 1), n);
  }

  function CatchingUps(k: Cast): seq<State> {
    seq(13, i requires 0 <= i < 13 => CatchingUp(k, i))
  }

  lemma CatchingUpSteps(k: Cast)
    requires AllFit(k)
    ensures Chain(NextOf(MEMBER), CatchingUps(k))
  {
    forall i: nat | i < 12 ensures NextOf(MEMBER)(CatchingUp(k, i), CatchingUp(k, i + 1)) {
      if i < 6 {
        FetchingStep(k, i);
      } else {
        OverlayStep(k, i - 6);
      }
    }
    CatchingUpChain(NextOf(MEMBER), k);
  }

  lemma CatchingUpChain(next: (State, State) -> bool, k: Cast)
    requires forall i: nat :: i < 12 ==> next(CatchingUp(k, i), CatchingUp(k, i + 1))
    ensures Chain(next, CatchingUps(k))
  {
    forall i, j | 0 <= i && j == i + 1 && j < 13 ensures next(CatchingUps(k)[i], CatchingUps(k)[j]) {
      assert next(CatchingUp(k, i), CatchingUp(k, i + 1));
    }
  }

  /** A promo's save and its broadcast. */
  function Pair(k: Cast, n: nat): seq<State>
    requires 0 < n
  {
    [Writing(k, n), Busy(k, n)]
  }

  lemma PairSteps(k: Cast, n: nat, path: seq<State>)
    requires AllFit(k) && Saved(RowOf(k, n)) && 2 <= n <= 4
    requires Chain(NextOf(MEMBER), path) && path[|path| - 1] == Busy(k, n - 1)
    ensures Chain(NextOf(MEMBER), path + Pair(k, n))
    ensures (path + Pair(k, n))[0] == path[0] && (path + Pair(k, n))[|path| + 1] == Busy(k, n)
  {
    WritingStep(k, n);
    QueueingStep(k, n);
    Two(NextOf(MEMBER), path, Writing(k, n), Busy(k, n));
  }

  // ---- Chains of any steps ----------------------------------------------------------

  lemma Three(next: (State, State) -> bool, a: State, b: State, c: State)
    requires next(a, b) && next(b, c)
    ensures Chain(next, [a, b, c])
  {
  }

  lemma Two(next: (State, State) -> bool, path: seq<State>, a: State, b: State)
    requires Chain(next, path) && next(path[|path| - 1], a) && next(a, b)
    ensures Chain(next, path + [a, b])
  {
  }

  lemma Joined(next: (State, State) -> bool, a: seq<State>, b: seq<State>)
    requires Chain(next, a) && Chain(next, b) && next(a[|a| - 1], b[0])
    ensures Chain(next, a + b)
  {
  }

  lemma CastReady(k: Cast)
    requires Storable(k)
    ensures AllFit(k) && AllSaved(k)
  {
    forall n | 0 < n <= 4 ensures Fits(k, n) {
      CastFits(k, n);
    }
  }

  lemma CaughtUpChain(k: Cast) returns (path: seq<State>)
    requires AllFit(k) && Saved(k.own)
    ensures Chain(NextOf(MEMBER), path) && |path| == 16 && path[0] == GENESIS && path[15] == Busy(k, 1)
  {
    OpeningSteps(k);
    ConnectingStep(k);
    CatchingUpSteps(k);
    Joined(NextOf(MEMBER), Opening(k), CatchingUps(k));
    path := Opening(k) + CatchingUps(k);
    assert CatchingUps(k)[12] == CatchingUp(k, 12);
  }

  lemma BusyChain(k: Cast, start: seq<State>) returns (path: seq<State>)
    requires AllFit(k) && AllSaved(k)
    requires Chain(NextOf(MEMBER), start) && start[|start| - 1] == Busy(k, 1)
    ensures Chain(NextOf(MEMBER), path) && |path| == |start| + 6 && path[0] == start[0]
    ensures path[|path| - 1] == Busy(k, 4)
  {
    path := start;
    for n := 2 to 5
      invariant |path| == |start| + 2 * (n - 2) && path[0] == start[0]
      invariant Chain(NextOf(MEMBER), path) && path[|path| - 1] == Busy(k, n - 1)
    {
      PairSteps(k, n, path);
      path := path + Pair(k, n);
    }
  }

  lemma WholeChain(k: Cast) returns (path: seq<State>)
    requires AllFit(k) && AllSaved(k)
    ensures Chain(NextOf(MEMBER), path) && |path| == 24
    ensures path[0] == GENESIS && path[22] == Relayed(k, 1) && path[23] == Relayed(k, 2)
  {
    assert RowOf(k, 1) == k.own;
    path := CaughtUpChain(k);
    path := BusyChain(k, path);
    RelayingSteps(k);
    Two(NextOf(MEMBER), path, Relayed(k, 1), Relayed(k, 2));
    path := path + [Relayed(k, 1), Relayed(k, 2)];
  }

  /** The run: the profile is saved, the viewer connects and catches up, three saves follow,
      each broadcast at once, and the queue is relayed. */
  lemma WholeRun(k: Cast) returns (run: seq<State>)
    requires Storable(k)
    ensures IsRun(MEMBER, run) && |run| == 24 && run[22] == Relayed(k, 1) && run[23] == Relayed(k, 2)
  {
    CastReady(k);
    run := WholeChain(k);
    RunIsChain(MEMBER, run);
  }

  lemma FinalTable(k: Cast)
    ensures TableOf(k, 4) == map["v" := k.own, "p" := k.second, "q" := k.other]
  {
    assert TableOf(k, 1) == map["v" := k.own];
    assert TableOf(k, 2) == map["v" := k.own, "p" := k.first];
    assert TableOf(k, 3) == map["v" := k.own, "p" := k.first, "q" := k.other];
  }

  /** For any profile and promos that can be saved there is a run through catch-up, overlay,
      coalescing and drain that ends at rest with them in the corpus. */
  lemma SomeRunRests(k: Cast) returns (run: seq<State>)
    requires Storable(k)
    ensures Enrolled(MEMBER.viewer, map[]) && IsRun(MEMBER, run) && AtRest(run[|run| - 1])
    ensures run[|run| - 1].table == map["v" := k.own, "p" := k.second, "q" := k.other]
  {
    FinalTable(k);
    run := WholeRun(k);
  }

  lemma OtherUnknown(k: Cast)
    requires Fits(k, 3) && !k.other.deleted
    ensures "q" !in Laid(k) && ShownColumn(k.other.mem).Some?
  {
    StoreFollowsLastFrame(map[], [FrameOf(k, 1)], "q");
    StoreFollowsLastFrame(Streamed(k), [Frame("v", k.own.full)], "q");
  }

  /** The client shows the promo saved last, is not yet sent the one saved before it, and
      would not be sent it again if it reconnected with the stamp it has. */
  ghost predicate Overtaken(k: Cast, s: State) {
    && Draining(s) && s.table == map["v" := k.own, "p" := k.second, "q" := k.other]
    && Get(s.store, "p") == ShownColumn(k.second.mem) && "q" !in s.store
    && !Honest(MEMBER, s.store, s.table, Some(k.second.stamp))
  }

  lemma RelayOvertakes(k: Cast)
    requires Fits(k, 3) && Fits(k, 4) && !k.other.deleted
    ensures Overtaken(k, Relayed(k, 1))
  {
    FinalTable(k);
    OtherUnknown(k);
    RelaysFirst(k);
    var s := Busy(k, 4);
    assert s.queue[1].key == Of("q");
    ReplacedInPlaceOvertakes(MEMBER, s, Relayed(k, 1), "p", "q");
  }

  /** In the same run, the last state but one: the promo saved twice has been relayed from
      its old place in the queue, and its `ts` is no safe cursor. */
  lemma NewestAppliedOvertakes(k: Cast) returns (run: seq<State>)
    requires Storable(k)
    ensures IsRun(MEMBER, run) && 1 < |run| && Overtaken(k, run[|run| - 2])
  {
    CastFits(k, 3);
    CastFits(k, 4);
    RelayOvertakes(k);
    run := WholeRun(k);
  }
}

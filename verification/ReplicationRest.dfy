/** Rest is always within reach: an open connection, wherever it has got to, can be brought to
    rest by fetches, overlay reads, relays and broadcasts, without another write. */
module ReplicationRest {
  import opened Base
  import opened AccessLevels
  import opened Entitlement
  import opened Frames
  import opened KeysetPaging
  import opened CoalescingQueues
  import opened Replication
  import opened ReplicationProof

  // ---- There is always a page to fetch and an overlay to read -----------------------

  lemma LeastExists(table: Table, candidates: set<Uid>) returns (least: Uid)
    requires candidates != {} && candidates <= table.Keys
    ensures least in candidates
    ensures forall u :: u in candidates && u != least ==> KeyLess(KeyOf(table, least), KeyOf(table, u))
    decreases candidates
  {
    var x :| x in candidates;
    least := x;
    if candidates - {x} != {} {
      var m := LeastExists(table, candidates - {x});
      KeyOrder(KeyOf(table, x), KeyOf(table, m));
      if KeyLess(KeyOf(table, m), KeyOf(table, x)) {
        least := m;
      } else {
        forall u | u in candidates && u != x && u != m ensures KeyLess(KeyOf(table, x), KeyOf(table, u)) {
          KeyTransitive(KeyOf(table, x), KeyOf(table, m), KeyOf(table, u));
        }
      }
    }
  }

  lemma {:induction false} PageExists(q: Query, cursor: Option<Key>, limit: nat, table: Table) returns (page: seq<Uid>)
    ensures IsPage(q, cursor, limit, table, page)
    decreases limit
  {
    page := [];
    if 0 < limit {
      page := PageExists(q, cursor, limit - 1, table);
      var rest := set u | u in table && Beyond(q, cursor, table, u) && u !in page;
      if rest != {} {
        var least := LeastExists(table, rest);
        PageExtends(q, cursor, limit - 1, table, page, least, rest);
        page := page + [least];
      } else {
        assert forall u :: u in table && Beyond(q, cursor, table, u) && u !in page ==> u in rest;
      }
    }
  }

  lemma PageExtends(q: Query, cursor: Option<Key>, limit: nat, table: Table, page: seq<Uid>, least: Uid, rest: set<Uid>)
    requires IsPage(q, cursor, limit, table, page) && least in rest
    requires forall u :: u in rest <==> u in table && Beyond(q, cursor, table, u) && u !in page
    requires forall u :: u in rest && u != least ==> KeyLess(KeyOf(table, least), KeyOf(table, u))
    ensures IsPage(q, cursor, limit + 1, table, page + [least])
  {
    forall i | 0 <= i < |page| ensures KeyLess(KeyOf(table, page[i]), KeyOf(table, least)) {
      if i < |page| - 1 {
        KeyTransitive(KeyOf(table, page[i]), KeyOf(table, page[|page| - 1]), KeyOf(table, least));
      }
    }
  }

  lemma FramesExist(level: Level, table: Table, page: seq<Uid>) returns (frames: seq<Frame>)
    requires forall u :: u in page ==> u in table
    ensures PageFrames(frames, level, table, page)
  {
    frames := seq(|page|, i requires 0 <= i < |page| =>
      Frame(page[i], StreamedPayload(level, page[i], table[page[i]])));
  }

  lemma {:induction false} SelectionExists(q: OverlayQuery, v: Viewer, table: Table, keys: set<Uid>)
      returns (frames: seq<Frame>)
    ensures forall f :: f in frames ==> Selects(q, v, table, f.uid) && f.payload == table[f.uid].full
    ensures forall u :: u in keys && Selects(q, v, table, u) ==> Frame(u, table[u].full) in frames
    decreases keys
  {
    frames := [];
    if keys != {} {
      var u :| u in keys;
      frames := SelectionExists(q, v, table, keys - {u});
      if Selects(q, v, table, u) {
        frames := frames + [Frame(u, table[u].full)];
      }
    }
  }

  // ---- How far an open connection is from rest --------------------------------------

  /** Open, and able to fetch what there is to page. */
  predicate Open(c: Conf, s: State) {
    !s.phase.Offline? && !s.closed && (s.phase.Paging? ==> 0 < c.batchSize)
  }

  predicate PhaseOk(c: Conf, s: State) {
    match s.phase
    case Paging(t, _) => t < 6
    case Overlay(k) => k < 6 && c.viewer.Some?
    case _ => true
  }

  lemma FetchPhase(c: Conf, s: State, s': State, page: seq<Uid>, frames: seq<Frame>)
    requires PhaseOk(c, s) && FetchBatch(c, s, s', page, frames)
    ensures PhaseOk(c, s')
  {
  }

  lemma OverlayPhase(c: Conf, s: State, s': State, frames: seq<Frame>)
    requires PhaseOk(c, s) && EmitOverlay(c, s, s', frames)
    ensures PhaseOk(c, s')
  {
  }

  lemma CommitPhase(c: Conf, s: State, s': State, written: map<Uid, Row>, news: seq<BroadcastData>)
    requires Commit(c, s, s', written, news)
    ensures s'.phase == s.phase
  {
  }

  lemma SendPhase(c: Conf, s: State, s': State, i: nat)
    requires Broadcast(c, s, s', i) || Answer(c, s, s', i)
    ensures s'.phase == s.phase
  {
  }

  lemma StepPhase(c: Conf, s: State, s': State)
    requires PhaseOk(c, s) && Next(c, s, s')
    ensures PhaseOk(c, s')
  {
    if written, news :| Commit(c, s, s', written, news) {
      CommitPhase(c, s, s', written, news);
    } else if i :| Broadcast(c, s, s', i) {
      SendPhase(c, s, s', i);
    } else if i :| Answer(c, s, s', i) {
      SendPhase(c, s, s', i);
    } else if CallJudge(c, s, s') {
    } else if Connect(c, s, s') {
    } else if Disconnect(s, s') {
    } else if page, frames :| FetchBatch(c, s, s', page, frames) {
      FetchPhase(c, s, s', page, frames);
    } else if frames :| EmitOverlay(c, s, s', frames) {
      OverlayPhase(c, s, s', frames);
    } else {
      assert Relay(s, s');
    }
  }

  lemma {:induction false} RunPhase(c: Conf, run: seq<State>, n: nat)
    requires IsRun(c, run) && n < |run|
    ensures PhaseOk(c, run[n])
    decreases n
  {
    if n > 0 {
      RunPhase(c, run, n - 1);
      assert Next(c, run[n - 1], run[n - 1 + 1]);
      StepPhase(c, run[n - 1], run[n]);
    }
  }

  /** Types and overlay queries still to come. */
  function Stage(s: State): nat {
    match s.phase
    case Paging(t, _) => if t < 6 then 13 - t else 0
    case Overlay(k) => if k < 6 then 7 - k else 0
    case _ => 0
  }

  function BeyondSet(q: Query, cursor: Option<Key>, table: Table): set<Uid> {
    set u | u in table && Beyond(q, cursor, table, u)
  }

  /** Rows of the current type still to be fetched. */
  function Unfetched(c: Conf, s: State): set<Uid> {
    if s.phase.Paging? && s.phase.typeIndex < 6 then
      BeyondSet(StreamQuery(c, s, s.phase.typeIndex), s.phase.cursor, s.table)
    else {}
  }

  /** One step closer to rest, the table left alone. */
  predicate Advances(c: Conf, s: State, s': State) {
    && Open(c, s') && PhaseOk(c, s') && s'.table == s.table
    && (|| Stage(s') < Stage(s)
        || (Stage(s') == Stage(s) &&
            (|| |Unfetched(c, s')| < |Unfetched(c, s)|
             || (|Unfetched(c, s')| == |Unfetched(c, s)| &&
                 (|s'.outbox| < |s.outbox| || (|s'.outbox| == |s.outbox| && |s'.queue| < |s.queue|))))))
  }

  lemma RelayOne(c: Conf, s: State) returns (s': State)
    requires Draining(s) && s.queue != []
    ensures Relay(s, s') && Advances(c, s, s')
  {
    var head := s.queue[0];
    s' := s.(queue := s.queue[1..],
             store := if head.msg.Object? then Apply(s.store, head.msg.frame) else s.store);
  }

  lemma BroadcastOldest(c: Conf, s: State) returns (s': State)
    requires 0 < c.maxsize && Draining(s) && s.queue == [] && s.outbox != []
    ensures Broadcast(c, s, s', 0) && Advances(c, s, s')
  {
    var bd := s.outbox[0];
    var msg := MessageFor(c.viewer, bd);
    var sent := s.(outbox := Replication.Without(s.outbox, 0));
    s' := if msg.None? then sent
          else sent.(queue := Placed(s.queue, Slot(Of(bd.uid), Object(Frame(bd.uid, msg.value)))));
  }

  lemma SmallerSet(small: set<Uid>, big: set<Uid>)
    requires small < big
    ensures |small| < |big|
  {
    assert |big - small| == |big| - |small|;
    var x :| x in big && x !in small;
    assert x in big - small;
  }

  /** A full page leaves less to fetch. */
  lemma PageShrinks(q: Query, cursor: Option<Key>, limit: nat, table: Table, page: seq<Uid>)
    requires IsPage(q, cursor, limit, table, page) && page != []
    ensures BeyondSet(q, Some(KeyOf(table, page[|page| - 1])), table) < BeyondSet(q, cursor, table)
  {
    var last := page[|page| - 1];
    assert last in page && Beyond(q, cursor, table, last);
    var next := Some(KeyOf(table, last));
    forall u | u in BeyondSet(q, next, table) ensures u in BeyondSet(q, cursor, table) {
      if cursor.Some? {
        KeyTransitive(cursor.value, KeyOf(table, last), KeyOf(table, u));
      }
    }
    KeyOrder(KeyOf(table, last), KeyOf(table, last));
    assert last !in BeyondSet(q, next, table) && last in BeyondSet(q, cursor, table);
  }

  lemma FetchAdvances(c: Conf, s: State) returns (s': State, page: seq<Uid>, frames: seq<Frame>)
    requires Open(c, s) && PhaseOk(c, s) && s.phase.Paging?
    ensures FetchBatch(c, s, s', page, frames) && Advances(c, s, s')
  {
    var t, cursor := s.phase.typeIndex, s.phase.cursor;
    var q := StreamQuery(c, s, t);
    page := PageExists(q, cursor, c.batchSize, s.table);
    frames := FramesExist(BaseLevel(c), s.table, page);
    var full := |page| == c.batchSize;
    s' := s.(store := ApplyAll(s.store, frames),
             phase := if full then Paging(t, Some(KeyOf(s.table, page[|page| - 1]))) else AfterType(c, t));
    if full {
      PageShrinks(q, cursor, c.batchSize, s.table, page);
      SmallerSet(Unfetched(c, s'), Unfetched(c, s));
    }
  }

  lemma OverlayAdvances(c: Conf, s: State) returns (s': State, frames: seq<Frame>)
    requires Open(c, s) && PhaseOk(c, s) && s.phase.Overlay?
    ensures EmitOverlay(c, s, s', frames) && Advances(c, s, s')
  {
    frames := SelectionExists(OVERLAY_QUERIES[s.phase.next], c.viewer.value, s.table, s.table.Keys);
    s' := s.(store := ApplyAll(s.store, frames),
             phase := if s.phase.next + 1 < 6 then Overlay(s.phase.next + 1) else Live);
  }

  // ---- Reaching rest ----------------------------------------------------------------

  ghost predicate CanAdvance(c: Conf, next: (State, State) -> bool, s: State) {
    exists s' :: next(s, s') && Advances(c, s, s')
  }

  ghost predicate Underway(c: Conf, s: State) {
    Open(c, s) && PhaseOk(c, s) && !AtRest(s)
  }

  lemma {:induction false} Drains(c: Conf, next: (State, State) -> bool, path: seq<State>) returns (longer: seq<State>)
    requires Chain(next, path) && Open(c, path[|path| - 1]) && PhaseOk(c, path[|path| - 1])
    requires forall s :: Underway(c, s) ==> CanAdvance(c, next, s)
    ensures Chain(next, longer) && path <= longer
    ensures AtRest(longer[|longer| - 1]) && longer[|longer| - 1].table == path[|path| - 1].table
    decreases Stage(path[|path| - 1]), |Unfetched(c, path[|path| - 1])|,
              |path[|path| - 1].outbox|, |path[|path| - 1].queue|
  {
    var s := path[|path| - 1];
    longer := path;
    if !AtRest(s) {
      assert Underway(c, s) && CanAdvance(c, next, s);
      var s' :| next(s, s') && Advances(c, s, s');
      longer := Drains(c, next, path + [s']);
    }
  }

  lemma UnderwayAdvances(c: Conf, s: State)
    requires 0 < c.maxsize && Underway(c, s)
    ensures CanAdvance(c, NextOf(c), s)
  {
    var s';
    if s.phase.Paging? {
      var page, frames;
      s', page, frames := FetchAdvances(c, s);
      FetchIsNext(c, s, s', page, frames);
    } else if s.phase.Overlay? {
      var frames;
      s', frames := OverlayAdvances(c, s);
      OverlayIsNext(c, s, s', frames);
    } else if s.queue != [] {
      s' := RelayOne(c, s);
      OtherIsNext(c, s, s');
    } else {
      s' := BroadcastOldest(c, s);
      BroadcastIsNext(c, s, s', 0);
    }
    assert NextOf(c)(s, s') && Advances(c, s, s');
  }

  lemma AllAdvance(c: Conf)
    requires 0 < c.maxsize
    ensures forall s :: Underway(c, s) ==> CanAdvance(c, NextOf(c), s)
  {
    forall s | Underway(c, s) ensures CanAdvance(c, NextOf(c), s) {
      UnderwayAdvances(c, s);
    }
  }

  /** Rest is always within reach of an open connection, paging, in its overlay or live:
      fetching what is left, reading the overlay, relaying what is queued and broadcasting
      what is saved, without another write, ends there. */
  lemma DrainReachesRest(c: Conf, run: seq<State>) returns (longer: seq<State>)
    requires IsRun(c, run) && 0 < c.maxsize && Open(c, run[|run| - 1])
    ensures IsRun(c, longer) && run <= longer
    ensures AtRest(longer[|longer| - 1]) && longer[|longer| - 1].table == run[|run| - 1].table
  {
    RunPhase(c, run, |run| - 1);
    RunIsChain(c, run);
    AllAdvance(c);
    longer := Drains(c, NextOf(c), run);
    assert longer[0] == run[0];
    RunIsChain(c, longer);
  }
}

/** The `sync_complete` timestamp as the cursor of the next connection. */
module SyncCursor {
  import opened Base
  import opened AccessLevels
  import opened Entitlement
  import opened Frames
  import opened KeysetPaging
  import opened PullPush
  import opened Replication

  predicate After(since: Option<nat>, row: Row) {
    since.None? || since.value < row.stamp
  }

  /** `frames` carry exactly the rows streamed at `level` past the cursor. */
  ghost predicate CarriesDelta(frames: seq<Frame>, level: Level, table: Table, since: Option<nat>) {
    && (forall f :: f in frames ==>
          f.uid in table && Streams(level, table[f.uid]) && After(since, table[f.uid])
          && f.payload == StreamedPayload(level, f.uid, table[f.uid]))
    && (forall u :: u in table && Streams(level, table[u]) && After(since, table[u]) ==>
          Frame(u, StreamedPayload(level, u, table[u])) in frames)
  }

  /** The cursor a client holds after `sync_complete`: the newest row delivered, or the one
      it connected with when nothing was. */
  ghost predicate IsSyncCursor(cursor: Option<nat>, level: Level, table: Table, since: Option<nat>) {
    && (forall u :: u in table && Streams(level, table[u]) && After(since, table[u]) ==>
          cursor.Some? && table[u].stamp <= cursor.value)
    && (cursor == since || exists u :: u in table && Streams(level, table[u]) && After(since, table[u])
                                       && cursor == Some(table[u].stamp))
  }

  /** What any later writes make of a table last written at or before `clock`. */
  predicate Later(table: Table, later: Table, clock: nat) {
    && table.Keys <= later.Keys
    && forall u :: u in later ==> (u in table && later[u] == table[u]) || clock < later[u].stamp
  }

  /** A frame sequence leaves the store alone about an object it does not mention. */
  lemma Unmentioned(store: Store, frames: seq<Frame>, u: Uid)
    requires forall f :: f in frames ==> f.uid != u
    ensures Get(ApplyAll(store, frames), u) == Get(store, u)
  {
    StoreFollowsLastFrame(store, frames, u);
    LastForOccurs(frames, u);
  }

  lemma Mentioned(store: Store, frames: seq<Frame>, u: Uid, payload: Dict)
    requires forall f :: f in frames && f.uid == u ==> f.payload == payload
    requires Frame(u, payload) in frames
    ensures Get(ApplyAll(store, frames), u) == Shown(payload)
  {
    StoreFollowsLastFrame(store, frames, u);
    LastForOccurs(frames, u);
  }

  /** The store after a quiet catch-up is right about a row at the base or entitled level. */
  lemma QuietCatchUp(c: Conf, table: Table, since: Option<nat>, store: Store, base: seq<Frame>, overlay: seq<Frame>,
                     u: Uid)
    requires BaseLevel(c) != Public && Honest(c, store, table, since)
    requires CarriesDelta(base, BaseLevel(c), table, since)
    requires if HasOverlay(c.viewer) then CarriesOverlay(overlay, c.viewer.value, table) else overlay == []
    requires u in table && Sound(table[u]) && RowLevel(c.viewer, table, u, table[u]) == c.ent(u)
    ensures var shown := Get(ApplyAll(ApplyAll(store, base), overlay), u);
            shown == ShownColumn(Column(table[u], BaseLevel(c))) || shown == ShownColumn(Column(table[u], c.ent(u)))
  {
    var row := table[u];
    assert Streams(BaseLevel(c), row);
    var synced := ApplyAll(store, base);
    if After(since, row) {
      Mentioned(store, base, u, StreamedPayload(BaseLevel(c), u, row));
    } else {
      Unmentioned(store, base, u);
    }
    if HasOverlay(c.viewer) && InOverlay(c.viewer.value, table, u) {
      var q :| Selects(q, c.viewer.value, table, u);
      OverlayIsEntitled(c.viewer.value, table, u, q);
      Mentioned(synced, overlay, u, row.full);
    } else {
      Unmentioned(synced, overlay, u);
    }
  }

  /** When no write commits during the catch-up, the timestamp of `sync_complete` is a safe
      cursor: whatever is written afterwards, a member or full-level client may reconnect
      with it. */
  lemma QuietCursorIsSafe(c: Conf, table: Table, clock: nat, since: Option<nat>, store: Store,
                          base: seq<Frame>, overlay: seq<Frame>, cursor: Option<nat>, later: Table)
    requires BaseLevel(c) != Public && Honest(c, store, table, since)
    requires CarriesDelta(base, BaseLevel(c), table, since)
    requires if HasOverlay(c.viewer) then CarriesOverlay(overlay, c.viewer.value, table) else overlay == []
    requires Entitled(c, table) && IsSyncCursor(cursor, BaseLevel(c), table, since)
    requires since.Some? ==> since.value <= clock
    requires forall u :: u in table ==> Sound(table[u]) && table[u].stamp <= clock
    requires Later(table, later, clock) && forall u :: u in later ==> Sound(later[u])
    ensures Honest(c, ApplyAll(ApplyAll(store, base), overlay), later, cursor)
  {
    var end := ApplyAll(ApplyAll(store, base), overlay);
    forall u | u in end ensures u in later {
      if u !in table {
        NothingUnknown(c, table, since, store, base, overlay, u);
      }
    }
    assert cursor.Some? ==> cursor.value <= clock;
    forall u | u in later && cursor.Some? && later[u].stamp <= cursor.value
      ensures Get(end, u) == ShownColumn(Column(later[u], BaseLevel(c)))
              || Get(end, u) == ShownColumn(Column(later[u], c.ent(u)))
    {
      assert u in table && later[u] == table[u];
      QuietCatchUp(c, table, since, store, base, overlay, u);
    }
    forall u | u in later ensures Streams(BaseLevel(c), later[u]) {
      StreamedAbovePublic(BaseLevel(c), later[u]);
    }
  }

  lemma StreamedAbovePublic(level: Level, row: Row)
    requires level != Public && Sound(row)
    ensures Streams(level, row)
  {
  }

  lemma NothingUnknown(c: Conf, table: Table, since: Option<nat>, store: Store, base: seq<Frame>, overlay: seq<Frame>,
                       u: Uid)
    requires Honest(c, store, table, since) && u !in table
    requires CarriesDelta(base, BaseLevel(c), table, since)
    requires if HasOverlay(c.viewer) then CarriesOverlay(overlay, c.viewer.value, table) else overlay == []
    ensures u !in ApplyAll(ApplyAll(store, base), overlay)
  {
    Unmentioned(ApplyAll(store, base), overlay, u);
    Unmentioned(store, base, u);
  }
}

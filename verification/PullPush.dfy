/** A fresh connect against a live broadcast: the base-level stream then the personal
    overlay must end on the projection the broadcast would select. */
module PullPush {
  import opened Base
  import opened AccessLevels
  import opened Entitlement
  import opened Frames
  import opened KeysetPaging

  /** `frames` carry exactly the streamed rows of the table at `level`. */
  ghost predicate CarriesBase(frames: seq<Frame>, level: Level, table: Table) {
    && (forall f :: f in frames ==>
          f.uid in table && Streams(level, table[f.uid]) && f.payload == StreamedPayload(level, f.uid, table[f.uid]))
    && (forall uid :: uid in table && Streams(level, table[uid]) ==>
          Frame(uid, StreamedPayload(level, uid, table[uid])) in frames)
  }

  /** `frames` carry the full columns of exactly the rows the overlay selects. */
  ghost predicate CarriesOverlay(frames: seq<Frame>, v: Viewer, table: Table) {
    && (forall f :: f in frames ==> InOverlay(v, table, f.uid) && f.payload == table[f.uid].full)
    && (forall uid :: InOverlay(v, table, uid) ==> Frame(uid, table[uid].full) in frames)
  }

  predicate HasOverlay(viewer: Option<Viewer>) {
    viewer.Some? && BaseDataLevel(viewer) == Member
  }

  /** The rows one query selects, in any order. */
  method FetchSelected(q: OverlayQuery, v: Viewer, table: Table) returns (rows: seq<Frame>)
    ensures forall f :: f in rows ==> Selects(q, v, table, f.uid) && f.payload == table[f.uid].full
    ensures forall uid :: Selects(q, v, table, uid) ==> Frame(uid, table[uid].full) in rows
  {
    rows := [];
    var left := table.Keys;
    while left != {}
      invariant left <= table.Keys
      invariant forall f :: f in rows ==> Selects(q, v, table, f.uid) && f.payload == table[f.uid].full
      invariant forall uid :: Selects(q, v, table, uid) && uid !in left ==> Frame(uid, table[uid].full) in rows
      decreases left
    {
      var uid :| uid in left;
      left := left - {uid};
      if Selects(q, v, table, uid) {
        rows := rows + [Frame(uid, table[uid].full)];
      }
    }
  }

  /** The personal overlay of a member: query after query, every selected row at full level. */
  method OverlayFrames(v: Viewer, table: Table) returns (frames: seq<Frame>)
    ensures CarriesOverlay(frames, v, table)
  {
    frames := [];
    var queries := [OwnProfile, OwnDecks, CountryUsers, CountryTournaments, Promos, Organized];
    for i := 0 to |queries|
      invariant forall f :: f in frames ==> InOverlay(v, table, f.uid) && f.payload == table[f.uid].full
      invariant forall j, uid :: 0 <= j < i && Selects(queries[j], v, table, uid) ==>
                  Frame(uid, table[uid].full) in frames
    {
      var rows := FetchSelected(queries[i], v, table);
      frames := frames + rows;
    }
    forall uid | InOverlay(v, table, uid) ensures Frame(uid, table[uid].full) in frames {
      var q :| Selects(q, v, table, uid);
      assert queries[QueryIndex(q)] == q;
    }
  }

  /** Pull and push agree: for every viewer and every live object of all six types, what the
      last frame of a fresh connect shows is what the projection selected for a live
      broadcast shows; private decks of finished events included. */
  lemma PullAgreesWithPush(viewer: Option<Viewer>, table: Table, base: seq<Frame>, overlay: seq<Frame>, uid: Uid)
    requires Enrolled(viewer, table)
    requires CarriesBase(base, BaseDataLevel(viewer), table)
    requires if HasOverlay(viewer) then CarriesOverlay(overlay, viewer.value, table) else overlay == []
    requires uid in table && !table[uid].deleted && Sound(table[uid]) && HasEvent(table, table[uid])
    ensures Get(ApplyAll(map[], base + overlay), uid)
         == ShownColumn(Column(table[uid], RowLevel(viewer, table, uid, table[uid])))
  {
    StoreFollowsLastFrame(map[], base + overlay, uid);
    LastForAppend(base, overlay, uid);
    LastForOccurs(base, uid);
    LastForOccurs(overlay, uid);
    EntitledShape(viewer, table, uid);
    if HasOverlay(viewer) {
      if InOverlay(viewer.value, table, uid) {
        var q :| Selects(q, viewer.value, table, uid);
        OverlayIsEntitled(viewer.value, table, uid, q);
        assert Frame(uid, table[uid].full) in overlay;
      } else if RowLevel(viewer, table, uid, table[uid]) == Full {
        OverlayCovers(viewer.value, table, uid);
      }
    }
  }

  /** What enrolment buys. An account with neither IC nor a VEKN id gets no overlay: pull and
      push agree on a live object exactly when the broadcast selects the public level for it,
      as it always does for an enrolled account, or the public projection is the full one. */
  lemma UnservedAgreement(v: Viewer, table: Table, base: seq<Frame>, uid: Uid)
    requires IC !in v.roles && !Truthy(v.veknId)
    requires CarriesBase(base, BaseDataLevel(Some(v)), table)
    requires uid in table && !table[uid].deleted && Sound(table[uid])
    ensures Get(ApplyAll(map[], base), uid)
         == ShownColumn(Column(table[uid], RowLevel(Some(v), table, uid, table[uid])))
       <==> RowLevel(Some(v), table, uid, table[uid]) == Public || table[uid].pub == Some(table[uid].full)
    ensures Enrolled(Some(v), table) ==> RowLevel(Some(v), table, uid, table[uid]) == Public
  {
    StoreFollowsLastFrame(map[], base, uid);
    LastForOccurs(base, uid);
    if Enrolled(Some(v), table) {
      EntitledShape(Some(v), table, uid);
    }
  }

  /** And why agreement needs it: were an NC to lose the VEKN id and keep the role, they
      would be broadcast a promo's holdings that no connect delivers. */
  lemma EnrolmentIsNeeded(v: Viewer, row: Row, base: seq<Frame>)
    requires IC !in v.roles && !Truthy(v.veknId) && NC in v.roles
    requires row.ty == PROMO && !row.deleted && Sound(row) && row.pub != Some(row.full)
    requires CarriesBase(base, Public, map["p" := row])
    ensures !Enrolled(Some(v), map["p" := row])
    ensures Get(ApplyAll(map[], base), "p")
         != ShownColumn(Column(row, RowLevel(Some(v), map["p" := row], "p", row)))
  {
    var table := map["p" := row];
    assert RowLevel(Some(v), table, "p", table["p"]) == Full;
    UnservedAgreement(v, table, base, "p");
  }
}

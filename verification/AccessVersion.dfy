/** The connect handshake's fingerprint: the inputs whose change forces a resync. */
module AccessVersion {
  import opened Base
  import opened AccessLevels
  import opened Entitlement

  const OVERLAY_ROLES: set<Role> := {IC, NC}

  /** The inputs a write to the user row itself can move. */
  function AccessInputs(viewer: Option<Viewer>): (Level, set<Role>, Option<string>) {
    var roles := if viewer.Some? then viewer.value.roles * OVERLAY_ROLES else {};
    (BaseDataLevel(viewer), roles, if NC in roles then viewer.value.country else None)
  }

  function OrganizerTournamentUids(v: Viewer, table: Table): set<Uid> {
    set t | t in table && Organizes(v, table, t)
  }

  const DATA_SCHEMA_VERSION := 1

  datatype Fingerprint =
    Fingerprint(schema: int, level: Level, roles: set<Role>, country: Option<string>, orgUids: set<Uid>)

  /** The hashed payload; only a member pays for the organizer query. */
  function ComputeAccessVersion(viewer: Option<Viewer>, table: Table): Fingerprint {
    var (level, roles, country) := AccessInputs(viewer);
    Fingerprint(DATA_SCHEMA_VERSION, level, roles, country,
                if viewer.Some? && level == Member then OrganizerTournamentUids(viewer.value, table) else {})
  }

  /** A deck's event has ended in one table exactly when it has in the other. */
  predicate SameEnding(t1: Table, t2: Table, deck: Row) {
    var t := StrField(deck.full, "tournament_uid");
    t.Some? && t.value in t1 && t.value in t2 &&
    (StrField(t1[t.value].full, "state") == Some(FINISHED) <==> StrField(t2[t.value].full, "state") == Some(FINISHED))
  }

  /** The viewer reads an unpublished deck of the table only as an organizer of its event. */
  predicate ReadsAsOrganizer(v: Viewer, table: Table, row: Row) {
    && row.ty == DECK && BoolField(row.full, "private") && BaseDataLevel(Some(v)) == Member
    && StrField(row.full, "user_uid") != Some(v.uid) && row.mem != Some(row.full)
    && var t := StrField(row.full, "tournament_uid");
       t.Some? && Organizes(v, table, t.value)
  }

  /** Exactly what an unchanged fingerprint hides. Whatever else moved in the viewer's account
      and in the table, an object stored alike reads alike, unless it is a private deck that a
      member reads only as an organizer of its event, and the event has ended in one state
      and not in the other: the fingerprint does not carry that. */
  lemma FingerprintSufficesIff(v1: Viewer, t1: Table, v2: Viewer, t2: Table, uid: Uid)
    requires v1.uid == v2.uid && Enrolled(Some(v1), t1) && Enrolled(Some(v2), t2)
    requires ComputeAccessVersion(Some(v1), t1) == ComputeAccessVersion(Some(v2), t2)
    requires uid in t1 && uid in t2 && t1[uid] == t2[uid] && !t1[uid].deleted && Sound(t1[uid])
    requires HasEvent(t1, t1[uid]) && HasEvent(t2, t2[uid])
    ensures Column(t1[uid], RowLevel(Some(v1), t1, uid, t1[uid]))
         == Column(t2[uid], RowLevel(Some(v2), t2, uid, t2[uid]))
       <==> (ReadsAsOrganizer(v1, t1, t1[uid]) ==> SameEnding(t1, t2, t1[uid]))
  {
    var row := t1[uid];
    assert IC in v1.roles <==> IC in v1.roles * OVERLAY_ROLES;
    assert NC in v1.roles <==> NC in v1.roles * OVERLAY_ROLES;
    assert IC in v2.roles <==> IC in v2.roles * OVERLAY_ROLES;
    assert NC in v2.roles <==> NC in v2.roles * OVERLAY_ROLES;
    if BaseDataLevel(Some(v1)) == Member {
      if row.ty == TOURNAMENT {
        assert uid in OrganizerTournamentUids(v1, t1) <==> uid in OrganizerTournamentUids(v2, t2);
      } else if row.ty == DECK {
        var t := StrField(row.full, "tournament_uid").value;
        assert t in OrganizerTournamentUids(v1, t1) <==> t in OrganizerTournamentUids(v2, t2);
      }
    }
  }

  /** The blind spot is real. When an event ends, an organizer with no other claim loses an
      unpublished private deck, and the fingerprint does not move: this is why ending an
      event re-saves its private decks. */
  lemma EndingEscapesFingerprint(v: Viewer, table: Table, t: Uid, ended: Row, d: Uid)
    requires v.roles == {} && Truthy(v.veknId)
    requires Organizes(v, table, t) && StrField(table[t].full, "state") != Some(FINISHED)
    requires Organizes(v, map[t := ended], t) && StrField(ended.full, "state") == Some(FINISHED)
    requires d in table && table[d].ty == DECK && !table[d].deleted && Sound(table[d])
    requires StrField(table[d].full, "tournament_uid") == Some(t) && StrField(table[d].full, "user_uid") != Some(v.uid)
    requires BoolField(table[d].full, "private") && !BoolField(table[d].full, "public")
    ensures ComputeAccessVersion(Some(v), table) == ComputeAccessVersion(Some(v), table[t := ended])
    ensures Column(table[d], RowLevel(Some(v), table, d, table[d])) == Some(table[d].full)
    ensures Column(table[d], RowLevel(Some(v), table[t := ended], d, table[d])).None?
  {
    var after := table[t := ended];
    forall u ensures u in OrganizerTournamentUids(v, table) <==> u in OrganizerTournamentUids(v, after) {
    }
    assert OrganizerTournamentUids(v, table) == OrganizerTournamentUids(v, after);
    FingerprintSufficesIff(v, table, v, after, d);
  }

  /** The fingerprint moves if and only if one of its inputs does: standing as an IC, or below that
      as a member; standing as an NC and, of an NC, the country; and, of a member, the live
      tournaments organized. */
  lemma FingerprintMovesIff(v1: Viewer, t1: Table, v2: Viewer, t2: Table)
    ensures ComputeAccessVersion(Some(v1), t1) == ComputeAccessVersion(Some(v2), t2)
       <==> && (IC in v1.roles <==> IC in v2.roles)
            && (NC in v1.roles <==> NC in v2.roles)
            && (NC in v1.roles ==> v1.country == v2.country)
            && (IC !in v1.roles ==>
                  && (Truthy(v1.veknId) <==> Truthy(v2.veknId))
                  && (Truthy(v1.veknId) ==>
                        forall t :: Organizes(v1, t1, t) <==> Organizes(v2, t2, t)))
  {
    var r1, r2 := v1.roles * OVERLAY_ROLES, v2.roles * OVERLAY_ROLES;
    assert forall r :: r in r1 <==> r in v1.roles && (r == IC || r == NC);
    assert forall r :: r in r2 <==> r in v2.roles && (r == IC || r == NC);
    var o1, o2 := OrganizerTournamentUids(v1, t1), OrganizerTournamentUids(v2, t2);
    assert forall t :: t in o1 <==> Organizes(v1, t1, t);
    assert forall t :: t in o2 <==> Organizes(v2, t2, t);
    if ComputeAccessVersion(Some(v1), t1) == ComputeAccessVersion(Some(v2), t2) {
      assert IC in r1 <==> IC in r2;
      assert NC in r1 <==> NC in r2;
    } else {
      assert (IC in v1.roles <==> IC in v2.roles) && (NC in v1.roles <==> NC in v2.roles) ==> r1 == r2;
      assert (forall t :: Organizes(v1, t1, t) <==> Organizes(v2, t2, t)) ==> o1 == o2;
    }
  }
}

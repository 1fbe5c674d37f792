/** Who is entitled to which projection of one object: the rule shared by the live
    broadcast, and what a fresh connect delivers by other means. */
module Entitlement {
  import opened AccessFields
  import opened Base
  import opened AccessLevels

  datatype Role = IC | NC | OtherRole(name: string)

  datatype Viewer = Viewer(uid: Uid, roles: set<Role>, country: Option<string>, veknId: Option<string>)

  /** One stored row: its clock stamp (`modified_at`), the soft-delete column and the
      projection columns. */
  datatype Row = Row(ty: ObjectType, stamp: nat, deleted: bool,
                     pub: Option<Dict>, mem: Option<Dict>, api: Option<Dict>, full: Dict)

  type Table = map<Uid, Row>

  function Column(row: Row, level: Level): Option<Dict> {
    match level
    case Public => row.pub
    case Member => row.mem
    case Full => Some(row.full)
  }

  /** The row `save_object` writes for `data`. */
  function Project(ty: ObjectType, data: Dict, stamp: nat): Row {
    Row(ty, stamp, IsDeleted(data),
        ComputePublic(ty, data), ComputeMember(ty, data), ComputeApi(ty, data), ComputeFull(ty, data))
  }

  /** The fields no model of a type declares: only tournaments and leagues list organizers,
      and a deck has no country. */
  predicate Declared(ty: ObjectType, data: Dict) {
    && (ty in {USER, SANCTION, DECK, PROMO} ==> "organizers_uids" !in data)
    && (ty == DECK ==> "country" !in data)
  }

  /** A row some save produced. */
  ghost predicate Saved(row: Row) {
    exists data: Dict {:trigger Project(row.ty, data, row.stamp)} ::
      Declared(row.ty, data) && row == Project(row.ty, data, row.stamp)
  }

  /** What every saved row guarantees its readers. */
  predicate Sound(row: Row) {
    && (row.ty in {USER, SANCTION, DECK, PROMO} ==> StringsField(row.full, "organizers_uids") == {})
    && (row.ty == DECK ==> StrField(row.full, "country").None?)
    && (row.ty in {SANCTION, LEAGUE} ==> row.mem == Some(row.full))
    && (row.mem.None? <==> row.ty == DECK && !BoolField(row.full, "public"))
    && (row.mem.None? ==> row.pub.None? && row.api.None?)
    && (row.pub.Some? ==> IsDeleted(row.pub.value) == row.deleted)
    && (row.mem.Some? ==> IsDeleted(row.mem.value) == row.deleted)
    && IsDeleted(row.full) == row.deleted
  }

  lemma UndeclaredStaysOut(ty: ObjectType, data: Dict)
    requires Declared(ty, data)
    ensures ty in {USER, SANCTION, DECK, PROMO} ==> StringsField(ComputeFull(ty, data), "organizers_uids") == {}
    ensures ty == DECK ==> StrField(ComputeFull(ty, data), "country").None?
  {
    if ty == USER {
      assert "organizers_uids" !in Without(data, USER_OWNER_ONLY_FIELDS);
    }
  }

  lemma MembersReadItAll(ty: ObjectType, data: Dict)
    ensures ty in {SANCTION, LEAGUE} ==> ComputeMember(ty, data) == Some(ComputeFull(ty, data))
    ensures ty == DECK ==> ComputeFull(ty, data) == data
  {
  }

  lemma SavedIsSound(row: Row)
    requires Saved(row)
    ensures Sound(row)
  {
    var data: Dict :| Declared(row.ty, data) && row == Project(row.ty, data, row.stamp);
    UndeclaredStaysOut(row.ty, data);
    MembersReadItAll(row.ty, data);
    OnlyDecksHideFromMembers(row.ty, data);
    PublicKeepsMark(row.ty, data);
    MemberKeepsMark(row.ty, data);
    FullKeepsMark(row.ty, data);
  }

  // ---- Levels -----------------------------------------------------------------------

  function BaseDataLevel(viewer: Option<Viewer>): Level {
    if viewer.None? then Public
    else if IC in viewer.value.roles then Full
    else if Truthy(viewer.value.veknId) then Member
    else Public
  }

  function EntitledLevel(viewer: Option<Viewer>, ty: ObjectType, uid: Uid, country: Option<string>,
                         orgUids: set<Uid>, objUserUid: Option<string>): Level {
    if viewer.None? then Public
    else
      var v := viewer.value;
      if IC in v.roles then Full
      else if ty == PROMO && NC in v.roles then Full
      else if NC in v.roles && Truthy(v.country) && Truthy(country) && v.country == country then Full
      else if v.uid in orgUids then Full
      else if Truthy(v.veknId) then
        if ty == USER && uid == v.uid then Full
        else if ty == DECK && objUserUid == Some(v.uid) then Full
        else Member
      else Public
  }

  const FINISHED: string := "Finished"

  /** The organizers a deck frame is stamped with: nobody, once a private deck's event ends. */
  function DeckOrgUids(private: bool, state: Option<string>, organizers: set<Uid>): set<Uid> {
    if private && state == Some(FINISHED) then {} else organizers
  }

  predicate TournamentRow(table: Table, uid: Uid) {
    uid in table && table[uid].ty == TOURNAMENT
  }

  predicate LiveTournament(table: Table, uid: Uid) {
    TournamentRow(table, uid) && !table[uid].deleted
  }

  /** A live deck belongs to a live tournament: deleting the event takes its decks along. */
  predicate HasEvent(table: Table, row: Row) {
    row.ty == DECK && !row.deleted ==>
      var t := StrField(row.full, "tournament_uid");
      t.Some? && LiveTournament(table, t.value)
  }

  /** The organizers the frame of a row carries: its own list, or for a deck its event's. */
  function OrgUids(table: Table, row: Row): set<Uid> {
    if row.ty == DECK then
      var t := StrField(row.full, "tournament_uid");
      if t.Some? && TournamentRow(table, t.value) then
        DeckOrgUids(BoolField(row.full, "private"), StrField(table[t.value].full, "state"),
                    StringsField(table[t.value].full, "organizers_uids"))
      else {}
    else StringsField(row.full, "organizers_uids")
  }

  /** The level a live broadcast of the stored row selects. */
  function RowLevel(viewer: Option<Viewer>, table: Table, uid: Uid, row: Row): Level {
    EntitledLevel(viewer, row.ty, uid, StrField(row.full, "country"), OrgUids(table, row),
                  StrField(row.full, "user_uid"))
  }

  // ---- What a connect delivers over the base level ----------------------------------

  /** The queries of the personal overlay, in the order it emits them. */
  datatype OverlayQuery = OwnProfile | OwnDecks | CountryUsers | CountryTournaments | Promos | Organized

  function QueryIndex(q: OverlayQuery): nat {
    match q
    case OwnProfile => 0
    case OwnDecks => 1
    case CountryUsers => 2
    case CountryTournaments => 3
    case Promos => 4
    case Organized => 5
  }

  predicate SameCountry(v: Viewer, row: Row) {
    Truthy(v.country) && NC in v.roles && StrField(row.full, "country") == v.country
  }

  predicate Organizes(v: Viewer, table: Table, t: Uid) {
    LiveTournament(table, t) && v.uid in StringsField(table[t].full, "organizers_uids")
  }

  /** The overlay query selects this row. Only the own profile is fetched deleted or not. */
  predicate Selects(q: OverlayQuery, v: Viewer, table: Table, uid: Uid) {
    uid in table &&
    var row := table[uid];
    match q
    case OwnProfile => uid == v.uid && row.ty == USER
    case OwnDecks => row.ty == DECK && !row.deleted && StrField(row.full, "user_uid") == Some(v.uid)
    case CountryUsers => row.ty == USER && !row.deleted && SameCountry(v, row)
    case CountryTournaments => row.ty == TOURNAMENT && !row.deleted && SameCountry(v, row)
    case Promos => row.ty == PROMO && !row.deleted && NC in v.roles
    case Organized =>
      || Organizes(v, table, uid)
      || (row.ty == DECK && !row.deleted &&
          var t := StrField(row.full, "tournament_uid");
          t.Some? && Organizes(v, table, t.value)
          && DeckOrgUids(BoolField(row.full, "private"), StrField(table[t.value].full, "state"), {v.uid}) != {})
  }

  predicate InOverlay(v: Viewer, table: Table, uid: Uid) {
    Selects(OwnProfile, v, table, uid) || Selects(OwnDecks, v, table, uid)
    || Selects(CountryUsers, v, table, uid) || Selects(CountryTournaments, v, table, uid)
    || Selects(Promos, v, table, uid) || Selects(Organized, v, table, uid)
  }

  /** Standing hangs off a VEKN id: without one an account is neither an NC nor an organizer.
      The routes that grant roles and appoint organizers refuse it, and splitting an account
      takes its roles along with its VEKN id. */
  predicate Enrolled(viewer: Option<Viewer>, table: Table) {
    viewer.Some? && !Truthy(viewer.value.veknId) ==>
      && NC !in viewer.value.roles
      && forall t :: t in table ==> viewer.value.uid !in StringsField(table[t].full, "organizers_uids")
  }

  /** An NC and an object of the NC's country. */
  predicate Compatriot(v: Viewer, row: Row) {
    && NC in v.roles && v.country.Some? && v.country.value != ""
    && StrField(row.full, "country") == v.country
  }

  /** Who reads what of a stored object. In full: an IC; the NC of its country; of a user, the user
      if a member; of an event or a league, its organizers; of a deck, its owner if a member and the
      organizers of its event, unless it is private and the event finished; of a promo, every NC.
      Anybody else with a VEKN id reads it as a member, and all others as the public. */
  lemma WhoReadsWhat(v: Viewer, table: Table, uid: Uid)
    requires uid in table && Sound(table[uid])
    ensures var row := table[uid];
            var member := v.veknId.Some? && v.veknId.value != "";
            var inFull := IC in v.roles || Compatriot(v, row) ||
              match row.ty
              case USER => member && uid == v.uid
              case SANCTION => false
              case TOURNAMENT => v.uid in StringsField(row.full, "organizers_uids")
              case LEAGUE => v.uid in StringsField(row.full, "organizers_uids")
              case DECK =>
                || (member && StrField(row.full, "user_uid") == Some(v.uid))
                || exists t :: t in table && table[t].ty == TOURNAMENT
                     && StrField(row.full, "tournament_uid") == Some(t)
                     && v.uid in StringsField(table[t].full, "organizers_uids")
                     && !(BoolField(row.full, "private") && StrField(table[t].full, "state") == Some("Finished"))
              case PROMO => NC in v.roles;
            RowLevel(Some(v), table, uid, row) == if inFull then Full else if member then Member else Public
    ensures RowLevel(None, table, uid, table[uid]) == Public
    ensures BaseDataLevel(None) == Public
  {
  }

  /** Every viewer is entitled to an object at the base level or at the full one, and only a
      member can be entitled above the base. */
  lemma EntitledShape(viewer: Option<Viewer>, table: Table, uid: Uid)
    requires Enrolled(viewer, table) && uid in table
    ensures RowLevel(viewer, table, uid, table[uid]) != BaseDataLevel(viewer) ==>
              BaseDataLevel(viewer) == Member && RowLevel(viewer, table, uid, table[uid]) == Full
  {
  }

  /** The overlay never hands out an object above the viewer's entitlement, nor, but for the own
      profile, a deleted one. */
  lemma OverlayIsEntitled(v: Viewer, table: Table, uid: Uid, q: OverlayQuery)
    requires BaseDataLevel(Some(v)) == Member && Selects(q, v, table, uid)
    ensures RowLevel(Some(v), table, uid, table[uid]) == Full
    ensures q == OwnProfile || !table[uid].deleted
  {
  }

  /** Every object the viewer is fully entitled to is in the overlay, or reads the same at
      member level. */
  lemma OverlayCovers(v: Viewer, table: Table, uid: Uid)
    requires BaseDataLevel(Some(v)) == Member
    requires uid in table && !table[uid].deleted && Sound(table[uid]) && HasEvent(table, table[uid])
    requires RowLevel(Some(v), table, uid, table[uid]) == Full
    ensures InOverlay(v, table, uid) || table[uid].mem == Some(table[uid].full)
  {
  }
}

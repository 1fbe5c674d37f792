/** Write-time projections: what each access level may read of one object. */
module AccessLevels {
  import opened AccessFields
  import opened Base

  datatype ObjectType = USER | SANCTION | TOURNAMENT | DECK | LEAGUE | PROMO

  datatype Level = Public | Member | Full

  function Pick(d: Dict, keys: set<string>): Dict {
    map k | k in d && k in keys :: d[k]
  }

  function Without(d: Dict, keys: set<string>): Dict {
    map k | k in d && k !in keys :: d[k]
  }

  /** Publishing a contact is the engine's call: it follows the NC and Prince roles. */
  predicate PublishesContact(roles: set<string>) {
    "NC" in roles || "Prince" in roles
  }

  const OBFUSCATED_PREFIX: string := "#b64#"

  /** The cloak put on a public contact; a value already cloaked is left alone. */
  function Obfuscate(value: string): string {
    if OBFUSCATED_PREFIX <= value then value else OBFUSCATED_PREFIX + value
  }

  function ObfuscateField(proj: Dict, field: string): Dict {
    if Truthy(StrField(proj, field)) then proj[field := Str(Obfuscate(proj[field].s))] else proj
  }

  function ObfuscatePublicContacts(proj: Dict): Dict {
    ObfuscateField(ObfuscateField(proj, "contact_email"), "contact_phone")
  }

  function UserPublic(d: Dict): Option<Dict> {
    var roles := StringsField(d, "roles");
    if PublishesContact(roles) then
      Some(ObfuscatePublicContacts(
             Pick(d, USER_PUBLIC_FIELDS + USER_CONTACT_FIELDS + USER_COMMUNITY_LINKS)))
    else if "IC" in roles then
      Some(Pick(d, USER_PUBLIC_FIELDS + USER_COMMUNITY_LINKS))
    else if NonEmptyList(d, "community_links") then
      Some(Pick(d, USER_LINKS_ONLY_FIELDS))
    else
      None
  }

  function UserMember(d: Dict): Dict {
    var roles := StringsField(d, "roles");
    if PublishesContact(roles) then
      Pick(d, USER_MEMBER_FIELDS + USER_CONTACT_FIELDS + USER_COMMUNITY_LINKS)
    else if "IC" in roles || NonEmptyList(d, "community_links") then
      Pick(d, USER_MEMBER_FIELDS + USER_COMMUNITY_LINKS)
    else
      Pick(d, USER_MEMBER_FIELDS)
  }

  function UserApi(d: Dict): Option<Dict> {
    if !Truthy(StrField(d, "vekn_id")) then None
    else if USER_API_CITY_ROLES !! StringsField(d, "roles") then
      Some(Pick(d, USER_API_FIELDS - USER_API_CITY_FIELDS))
    else
      Some(Pick(d, USER_API_FIELDS))
  }

  /** An online event's venue URL is its join link, withheld from the public. */
  function TournamentPublic(d: Dict): Dict {
    var proj := Pick(d, TOURNAMENT_PUBLIC_FIELDS);
    if BoolField(d, "online") then proj - {"venue_url"} else proj
  }

  function StripPlayer(player: Json): Json {
    if player.Obj? then Obj(Without(player.fields, PLAYER_API_EXCLUDE)) else player
  }

  function TournamentApi(d: Dict): Dict {
    var players := if "players" in d && d["players"].Arr? then d["players"].items else [];
    Without(d, TOURNAMENT_API_EXCLUDE)
      ["players" := Arr(seq(|players|, i requires 0 <= i < |players| => StripPlayer(players[i])))]
  }

  predicate Anonymous(d: Dict) {
    && "attribution" in d && d["attribution"].Obj?
    && StrField(d["attribution"].fields, "kind") == Some("Anonymous")
  }

  /** The deck members may read: an anonymous credit hides the owner, the winner's excepted. */
  function PublishedDeck(d: Dict): Dict {
    Without(d, {"private", "views"}
               + if Anonymous(d) && !BoolField(d, "winner") then {"user_uid"} else {})
  }

  function DeckApi(d: Dict): Option<Dict> {
    if !BoolField(d, "public") then None
    else
      var proj := Without(PublishedDeck(d), DECK_API_EXCLUDE);
      Some(if "attribution" in proj && proj["attribution"].Obj?
           then proj["attribution" := Obj(Without(proj["attribution"].fields, {"name"}))]
           else proj)
  }

  function PromoPublic(d: Dict): (proj: Dict)
    ensures "holdings" !in proj
  {
    Without(d, {"holdings"})
  }

  function ComputePublic(ty: ObjectType, d: Dict): Option<Dict> {
    match ty
    case USER => UserPublic(d)
    case TOURNAMENT => Some(TournamentPublic(d))
    case SANCTION => None
    case DECK => None
    case LEAGUE => Some(Without(d, {"organizers_uids"}))
    case PROMO => Some(PromoPublic(d))
  }

  function ComputeMember(ty: ObjectType, d: Dict): Option<Dict> {
    match ty
    case USER => Some(UserMember(d))
    case TOURNAMENT => Some(Without(d, TOURNAMENT_MEMBER_EXCLUDE))
    case SANCTION => Some(d)
    case DECK => if BoolField(d, "public") then Some(PublishedDeck(d)) else None
    case LEAGUE => Some(d)
    case PROMO => Some(PromoPublic(d))
  }

  function ComputeApi(ty: ObjectType, d: Dict): Option<Dict> {
    match ty
    case USER => UserApi(d)
    case TOURNAMENT => Some(TournamentApi(d))
    case SANCTION => None
    case DECK => DeckApi(d)
    case LEAGUE => Some(Without(d, API_SYNC_FIELDS))
    case PROMO => None
  }

  function ComputeFull(ty: ObjectType, d: Dict): Dict {
    if ty == USER then Without(d, USER_OWNER_ONLY_FIELDS) else d
  }

  function Compute(ty: ObjectType, level: Level, d: Dict): Option<Dict> {
    match level
    case Public => ComputePublic(ty, d)
    case Member => ComputeMember(ty, d)
    case Full => Some(ComputeFull(ty, d))
  }

  // ---- The deletion mark ------------------------------------------------------------

  lemma PublicUserKeepsMark(d: Dict)
    ensures UserPublic(d).Some? ==> IsDeleted(UserPublic(d).value) == IsDeleted(d)
  {
    if PublishesContact(StringsField(d, "roles")) {
      var proj := Pick(d, USER_PUBLIC_FIELDS + USER_CONTACT_FIELDS + USER_COMMUNITY_LINKS);
      var once := ObfuscateField(proj, "contact_email");
      assert IsDeleted(once) == IsDeleted(proj);
      assert IsDeleted(ObfuscateField(once, "contact_phone")) == IsDeleted(once);
    }
  }

  lemma MemberUserKeepsMark(d: Dict)
    ensures IsDeleted(UserMember(d)) == IsDeleted(d)
  {
  }

  lemma TournamentKeepsMark(d: Dict)
    ensures IsDeleted(TournamentPublic(d)) == IsDeleted(d)
    ensures IsDeleted(Without(d, TOURNAMENT_MEMBER_EXCLUDE)) == IsDeleted(d)
  {
  }

  lemma PublicKeepsMark(ty: ObjectType, d: Dict)
    ensures ComputePublic(ty, d).Some? ==> IsDeleted(ComputePublic(ty, d).value) == IsDeleted(d)
  {
    PublicUserKeepsMark(d);
    TournamentKeepsMark(d);
  }

  lemma MemberKeepsMark(ty: ObjectType, d: Dict)
    ensures ComputeMember(ty, d).Some? ==> IsDeleted(ComputeMember(ty, d).value) == IsDeleted(d)
  {
    MemberUserKeepsMark(d);
    TournamentKeepsMark(d);
  }

  lemma FullKeepsMark(ty: ObjectType, d: Dict)
    ensures IsDeleted(ComputeFull(ty, d)) == IsDeleted(d)
  {
  }

  lemma ApiUserDropsMark(d: Dict)
    ensures UserApi(d).Some? ==> !IsDeleted(UserApi(d).value)
  {
    assert "deleted_at" !in USER_API_FIELDS;
  }

  lemma ApiDropsMark(ty: ObjectType, d: Dict)
    ensures ComputeApi(ty, d).Some? ==> !IsDeleted(ComputeApi(ty, d).value)
  {
    assert "deleted_at" in API_SYNC_FIELDS;
    ApiUserDropsMark(d);
  }

  /** A soft delete reaches each synced level as a frame that evicts: every projection for
      the public, for members and in full carries the object's deletion mark unchanged. The
      API's never carry it. */
  lemma DeletionMarkSurvives(ty: ObjectType, level: Level, d: Dict)
    ensures Compute(ty, level, d).Some? ==> IsDeleted(Compute(ty, level, d).value) == IsDeleted(d)
    ensures ComputeApi(ty, d).Some? ==> !IsDeleted(ComputeApi(ty, d).value)
  {
    PublicKeepsMark(ty, d);
    MemberKeepsMark(ty, d);
    FullKeepsMark(ty, d);
    ApiDropsMark(ty, d);
  }

  // ---- Who reads what ---------------------------------------------------------------

  /** At member level only a deck can lack a projection, and it lacks one exactly while it
      is not published. The member catch-up, which retracts decks alone, rests on this.
      What members cannot see, neither the public nor the public API sees. */
  lemma OnlyDecksHideFromMembers(ty: ObjectType, d: Dict)
    ensures ComputeMember(ty, d).None? <==> ty == DECK && !BoolField(d, "public")
    ensures ComputeMember(ty, d).None? ==> ComputePublic(ty, d).None? && ComputeApi(ty, d).None?
  {
  }

  /** A public field is the member's field, but for the cloak on two contacts. */
  lemma PublicUserNests(d: Dict, k: string)
    requires UserPublic(d).Some? && k in UserPublic(d).value
    ensures k in UserMember(d)
    ensures UserPublic(d).value[k] == UserMember(d)[k]
            || (k in {"contact_email", "contact_phone"} && UserMember(d)[k].Str?
                && UserPublic(d).value[k] == Str(Obfuscate(UserMember(d)[k].s)))
  {
    if PublishesContact(StringsField(d, "roles")) {
      var proj := Pick(d, USER_PUBLIC_FIELDS + USER_CONTACT_FIELDS + USER_COMMUNITY_LINKS);
      var once := ObfuscateField(proj, "contact_email");
      assert k in once && k in proj;
    } else if "IC" !in StringsField(d, "roles") {
      assert USER_LINKS_ONLY_FIELDS <= USER_PUBLIC_FIELDS + USER_COMMUNITY_LINKS;
    }
  }

  lemma MemberUserNests(d: Dict, k: string)
    requires k in UserMember(d)
    ensures k in ComputeFull(USER, d) && ComputeFull(USER, d)[k] == UserMember(d)[k]
  {
    if k in USER_OWNER_ONLY_FIELDS {
      OwnerOnlyApart();
      OwnerOnlyApartFromContacts();
    }
  }

  /** The levels nest: what the public reads of an object members read as well, and what
      members read is in the full projection, field by field with the same value, except
      that the public gets an official's e-mail and phone cloaked. */
  lemma LevelsNest(ty: ObjectType, d: Dict, k: string)
    ensures ComputePublic(ty, d).Some? && k in ComputePublic(ty, d).value ==>
              && ComputeMember(ty, d).Some? && k in ComputeMember(ty, d).value
              && (ComputePublic(ty, d).value[k] == ComputeMember(ty, d).value[k]
                  || (ty == USER && k in {"contact_email", "contact_phone"} && ComputeMember(ty, d).value[k].Str?
                      && ComputePublic(ty, d).value[k] == Str(Obfuscate(ComputeMember(ty, d).value[k].s))))
    ensures ComputeMember(ty, d).Some? && k in ComputeMember(ty, d).value ==>
              k in ComputeFull(ty, d) && ComputeFull(ty, d)[k] == ComputeMember(ty, d).value[k]
  {
    if ty == USER {
      if UserPublic(d).Some? && k in UserPublic(d).value {
        PublicUserNests(d, k);
      }
      if k in UserMember(d) {
        MemberUserNests(d, k);
      }
    } else if ty == TOURNAMENT {
      if k in TOURNAMENT_MEMBER_EXCLUDE {
        BookkeepingApart();
      }
    }
  }

  /** Below the full level a contact is read only of an official whose role publishes it, by
      members and the public alike; the API hands out none; and the public reads a cloaked
      e-mail and phone. */
  lemma ContactsFollowTheRole(d: Dict, k: string)
    requires k in ROLE_CONTACTS
    ensures k in UserMember(d) ==> PublishesContact(StringsField(d, "roles"))
    ensures UserPublic(d).Some? && k in UserPublic(d).value ==> PublishesContact(StringsField(d, "roles"))
    ensures UserApi(d).Some? ==> k !in UserApi(d).value
  {
    ContactsApart();
    ContactsApartElsewhere();
  }

  lemma CloakedField(proj: Dict, k: string)
    requires k in {"contact_email", "contact_phone"} && k in proj && Truthy(StrField(proj, k))
    ensures k in ObfuscatePublicContacts(proj) && ObfuscatePublicContacts(proj)[k] == Str(Obfuscate(proj[k].s))
  {
    var once := ObfuscateField(proj, "contact_email");
    if k == "contact_phone" {
      assert once[k] == proj[k];
    }
  }

  lemma PublicContactsAreCloaked(d: Dict, k: string)
    requires k in {"contact_email", "contact_phone"} && Truthy(StrField(d, k))
    requires UserPublic(d).Some? && k in UserPublic(d).value
    ensures UserPublic(d).value[k] == Str(if "#b64#" <= d[k].s then d[k].s else "#b64#" + d[k].s)
  {
    ContactsFollowTheRole(d, k);
    var proj := Pick(d, USER_PUBLIC_FIELDS + USER_CONTACT_FIELDS + USER_COMMUNITY_LINKS);
    assert k in USER_CONTACT_FIELDS && k in proj && proj[k] == d[k];
    CloakedField(proj, k);
  }

  lemma PublicEventSecrets(d: Dict)
    ensures "checkin_code" !in TournamentPublic(d)
    ensures BoolField(d, "online") ==> "venue_url" !in TournamentPublic(d)
  {
    BookkeepingApart();
    assert "checkin_code" in TOURNAMENT_MEMBER_EXCLUDE;
  }

  lemma ApiEventSecrets(d: Dict)
    ensures "checkin_code" !in TournamentApi(d)
  {
    assert "checkin_code" in TOURNAMENT_API_EXCLUDE && "checkin_code" != "players";
  }

  /** An event's check-in code stays at the full level, and an online event's join link out
      of the public one. */
  lemma EventSecretsStay(d: Dict)
    ensures ComputePublic(TOURNAMENT, d).Some? && ComputeMember(TOURNAMENT, d).Some? && ComputeApi(TOURNAMENT, d).Some?
    ensures "checkin_code" !in ComputePublic(TOURNAMENT, d).value
    ensures "checkin_code" !in ComputeMember(TOURNAMENT, d).value
    ensures "checkin_code" !in ComputeApi(TOURNAMENT, d).value
    ensures BoolField(d, "online") ==> "venue_url" !in ComputePublic(TOURNAMENT, d).value
  {
    PublicEventSecrets(d);
    ApiEventSecrets(d);
  }

  lemma AnonymousOwnerStays(d: Dict)
    requires Anonymous(d) && !BoolField(d, "winner")
    ensures "user_uid" !in PublishedDeck(d)
    ensures DeckApi(d).Some? ==> "user_uid" !in DeckApi(d).value
  {
    assert "user_uid" !in Without(PublishedDeck(d), DECK_API_EXCLUDE);
  }

  /** Promo holdings are in no projection but the full one; the API has no promos at all. */
  lemma HoldingsStay(d: Dict, proj: Dict)
    requires
      || ComputePublic(PROMO, d) == Some(proj)
      || ComputeMember(PROMO, d) == Some(proj)
      || ComputeApi(PROMO, d) == Some(proj)
    ensures "holdings" !in proj && ComputeApi(PROMO, d) != Some(proj)
  {
  }

  /** The owner of an anonymous deck that did not win stays out of every projection but the
      full one, the API's included. */
  lemma OwnersStay(d: Dict)
    requires Anonymous(d) && !BoolField(d, "winner")
    ensures ComputePublic(DECK, d).None?
    ensures ComputeMember(DECK, d).Some? ==> "user_uid" !in ComputeMember(DECK, d).value
    ensures ComputeApi(DECK, d).Some? ==> "user_uid" !in ComputeApi(DECK, d).value
  {
    AnonymousOwnerStays(d);
  }
}

/** What each column of a saved row holds: for every type and reader, which fields of the object
    are there, with their values, and which are withheld. */
module Projections {
  import opened AccessFields
  import opened AccessLevels
  import opened Base
  import opened Entitlement

  /** The column has the object's fields but for some, each as it is. */
  ghost predicate AllBut(column: Option<Dict>, data: Dict, withheld: set<string>) {
    && column.Some?
    && (forall k :: k in column.value <==> k in data && k !in withheld)
    && (forall k :: k in column.value ==> column.value[k] == data[k])
  }

  /** The column has those of some fields the object has, each as it is. */
  ghost predicate Only(column: Option<Dict>, data: Dict, fields: set<string>) {
    && column.Some?
    && (forall k :: k in column.value <==> k in data && k in fields)
    && (forall k :: k in column.value ==> column.value[k] == data[k])
  }

  predicate PublishesContacts(data: Dict) {
    "NC" in StringsField(data, "roles") || "Prince" in StringsField(data, "roles")
  }

  predicate PublishesLinks(data: Dict) {
    PublishesContacts(data) || "IC" in StringsField(data, "roles") || NonEmptyList(data, "community_links")
  }

  /** Members read the profile of every user. */
  const PROFILE: set<string> :=
    {"uid", "modified", "deleted_at", "name", "country", "roles", "vekn_prefix", "vekn_id", "city",
     "city_geoname_id", "state", "nickname", "avatar_path", "deceased_at", "anonymized_at", "discord_id",
     "constructed_online", "constructed_offline", "limited_online", "limited_offline", "wins"}
  const CONTACTS: set<string> :=
    {"contact_email", "contact_discord", "discord_id", "contact_phone", "phone_is_whatsapp"}
  const LINKS: set<string> := {"community_links"}

  lemma Picked(data: Dict, fields: set<string>, named: set<string>)
    requires fields == named
    ensures Only(Some(Pick(data, fields)), data, named)
  {
  }

  lemma Withheld(data: Dict, fields: set<string>, named: set<string>)
    requires fields == named
    ensures AllBut(Some(Without(data, fields)), data, named)
  {
  }

  lemma UserFieldsNamed()
    ensures USER_MEMBER_FIELDS == PROFILE && USER_CONTACT_FIELDS == CONTACTS && USER_COMMUNITY_LINKS == LINKS
    ensures USER_OWNER_ONLY_FIELDS == {"calendar_token", "agenda_hidden", "agenda_added"}
  {
  }

  lemma UserMemberPicks(data: Dict)
    ensures var links, contacts := if PublishesLinks(data) then USER_COMMUNITY_LINKS else {},
                                   if PublishesContacts(data) then USER_CONTACT_FIELDS else {};
            UserMember(data) == Pick(data, USER_MEMBER_FIELDS + links + contacts)
  {
    var fields := USER_MEMBER_FIELDS;
    assert fields + {} + {} == fields && fields + USER_COMMUNITY_LINKS + {} == fields + USER_COMMUNITY_LINKS;
    assert fields + USER_COMMUNITY_LINKS + USER_CONTACT_FIELDS == fields + USER_CONTACT_FIELDS + USER_COMMUNITY_LINKS;
  }

  /** Members read every user's profile, with the links of those who publish them and the
      contacts of those whose role does; in full all is read but the owner's own settings. */
  lemma UsersForMembers(data: Dict, stamp: nat)
    ensures var row := Project(USER, data, stamp);
            && Only(row.mem, data, PROFILE + (if PublishesLinks(data) then LINKS else {})
                                   + (if PublishesContacts(data) then CONTACTS else {}))
            && AllBut(Some(row.full), data, {"calendar_token", "agenda_hidden", "agenda_added"})
  {
    UserFieldsNamed();
    UserMemberPicks(data);
    var fields := PROFILE + (if PublishesLinks(data) then LINKS else {})
                          + (if PublishesContacts(data) then CONTACTS else {});
    Picked(data, fields, fields);
    Withheld(data, USER_OWNER_ONLY_FIELDS, {"calendar_token", "agenda_hidden", "agenda_added"});
  }

  lemma Cloak(proj: Dict)
    ensures var cloaked := ObfuscatePublicContacts(proj);
            && cloaked.Keys == proj.Keys
            && forall k :: k in proj ==>
                 cloaked[k] == if k in {"contact_email", "contact_phone"} && Truthy(StrField(proj, k))
                               then Str(Obfuscate(proj[k].s)) else proj[k]
  {
    var once := ObfuscateField(proj, "contact_email");
    forall k | k in proj
      ensures ObfuscatePublicContacts(proj)[k]
           == if k in {"contact_email", "contact_phone"} && Truthy(StrField(proj, k))
              then Str(Obfuscate(proj[k].s)) else proj[k]
    {
      if k == "contact_phone" {
        assert once[k] == proj[k];
      }
    }
  }

  /** The public reads of an official whose role publishes contacts the card, the links and the
      contacts, e-mail and phone cloaked; of the IC the card and the links; of anybody else with
      links those, without the name; of others nothing. */
  lemma UsersForThePublic(data: Dict, stamp: nat)
    ensures var pub := Project(USER, data, stamp).pub;
            var card := {"uid", "modified", "deleted_at", "name", "country", "roles", "vekn_prefix", "community_links"};
            if PublishesContacts(data) then
              && pub.Some?
              && (forall k :: k in pub.value <==> k in data && (k in card || k in CONTACTS))
              && (forall k :: k in pub.value ==>
                    pub.value[k] == if k in {"contact_email", "contact_phone"} && Truthy(StrField(data, k))
                                    then Str(Obfuscate(data[k].s)) else data[k])
            else if "IC" in StringsField(data, "roles") then Only(pub, data, card)
            else if NonEmptyList(data, "community_links") then
              Only(pub, data, {"uid", "modified", "deleted_at", "country", "roles", "community_links"})
            else pub.None?
  {
    Cloak(Pick(data, USER_PUBLIC_FIELDS + USER_CONTACT_FIELDS + USER_COMMUNITY_LINKS));
  }

  /** The API has the users with a VEKN id: country, roles, links and ratings of all, and of those
      who hold one of six offices their city. */
  lemma UsersForTheApi(data: Dict, stamp: nat)
    ensures var api := Project(USER, data, stamp).api;
            var listed := {"uid", "vekn_id", "country", "roles", "community_links", "constructed_online",
                           "constructed_offline", "limited_online", "limited_offline", "wins"};
            var offices := {"IC", "NC", "Prince", "Rulemonger", "Judge", "Sheriff"};
            if !("vekn_id" in data && data["vekn_id"].Str? && data["vekn_id"].s != "") then api.None?
            else if exists role :: role in offices && role in StringsField(data, "roles") then
              Only(api, data, listed + {"city", "city_geoname_id"})
            else Only(api, data, listed)
  {
    CityApart();
    assert USER_API_FIELDS == USER_API_LISTED_FIELDS + USER_API_CITY_FIELDS;
    var roles := StringsField(data, "roles");
    if role :| role in USER_API_CITY_ROLES && role in roles {
      assert role in USER_API_CITY_ROLES * roles;
    }
  }

  /** Of an event everybody reads the announcement, an online one's join link excepted; members
      read all but five fields of bookkeeping, and the full projection is the event. */
  lemma Events(data: Dict, stamp: nat)
    ensures var row := Project(TOURNAMENT, data, stamp);
            && Only(row.pub, data,
                    {"uid", "modified", "deleted_at", "name", "format", "rank", "online", "start", "finish",
                     "timezone", "country", "city", "city_geoname_id", "league_uid", "state", "banner_path",
                     "venue", "venue_url", "address", "map_url", "registration_url", "description",
                     "external_ids", "event_code", "proxies", "multideck", "decklist_required", "max_rounds",
                     "max_players", "open_rounds", "self_organized_rounds"}
                    - if BoolField(data, "online") then {"venue_url"} else {})
            && AllBut(row.mem, data,
                      {"checkin_code", "vekn_pushed_at", "vekn_results_stale", "vekn_event_absent_at", "twda_status"})
            && row.full == data
  {
  }

  /** A player as the API hands it out. */
  ghost predicate ApiPlayer(given: Json, left: Json) {
    given.Obj? ==>
      && left.Obj?
      && AllBut(Some(left.fields), given.fields, {"display_name", "missing_decklist", "payment_status", "waitlisted"})
  }

  lemma StrippedPlayer(player: Json)
    ensures ApiPlayer(player, StripPlayer(player))
  {
  }

  lemma ApiPlayers(data: Dict)
    requires "players" in data && data["players"].Arr?
    ensures var api := TournamentApi(data);
            && "players" in api && api["players"].Arr?
            && |api["players"].items| == |data["players"].items|
            && forall i :: 0 <= i < |data["players"].items| ==>
                 ApiPlayer(data["players"].items[i], api["players"].items[i])
  {
    forall i | 0 <= i < |data["players"].items|
      ensures ApiPlayer(data["players"].items[i], TournamentApi(data)["players"].items[i])
    {
      StrippedPlayer(data["players"].items[i]);
    }
  }

  lemma ApiEventFields(data: Dict)
    ensures AllBut(Some(TournamentApi(data) - {"players"}), data - {"players"},
                   {"checkin_code", "vekn_pushed_at", "vekn_results_stale", "vekn_event_absent_at", "twda_status",
                    "modified", "deleted_at", "announcements", "raffles", "promos_distributed",
                    "promo_stock_source_uid", "offline_device_id"})
  {
    assert TournamentApi(data) - {"players"} == Without(data, TOURNAMENT_API_EXCLUDE) - {"players"};
  }

  /** The API hands out an event but for twelve fields, with four fields left out of every player. */
  lemma EventsForTheApi(data: Dict, stamp: nat)
    requires "players" in data && data["players"].Arr?
    ensures var api := Project(TOURNAMENT, data, stamp).api;
            && api.Some? && "players" in api.value && api.value["players"].Arr?
            && AllBut(Some(api.value - {"players"}), data - {"players"},
                      {"checkin_code", "vekn_pushed_at", "vekn_results_stale", "vekn_event_absent_at", "twda_status",
                       "modified", "deleted_at", "announcements", "raffles", "promos_distributed",
                       "promo_stock_source_uid", "offline_device_id"})
            && |api.value["players"].items| == |data["players"].items|
            && forall i :: 0 <= i < |data["players"].items| ==>
                 ApiPlayer(data["players"].items[i], api.value["players"].items[i])
  {
    ApiPlayers(data);
    ApiEventFields(data);
  }

  /** The credit is anonymous, and the deck did not win. */
  predicate HidesItsOwner(data: Dict) {
    && "attribution" in data && data["attribution"].Obj? && "kind" in data["attribution"].fields
    && data["attribution"].fields["kind"] == Str("Anonymous")
    && !("winner" in data && data["winner"] == Bool(true))
  }

  /** A published deck is read by members but for two fields, and its owner where an anonymous
      credit hides one who did not win; an unpublished one by nobody below the full level, which
      is the deck; and no deck by the public. */
  lemma Decks(data: Dict, stamp: nat)
    ensures var row := Project(DECK, data, stamp);
            var owner := if HidesItsOwner(data) then {"user_uid"} else {};
            && row.pub.None? && row.full == data
            && (if BoolField(data, "public") then AllBut(row.mem, data, {"private", "views"} + owner)
                else row.mem.None? && row.api.None?)
  {
  }

  /** The API has the published decks, without sync fields and flags and without the name in the credit. */
  lemma DecksForTheApi(data: Dict, stamp: nat)
    requires BoolField(data, "public") && "attribution" in data && data["attribution"].Obj?
    ensures var api := Project(DECK, data, stamp).api;
            var owner := if HidesItsOwner(data) then {"user_uid"} else {};
            && api.Some? && "attribution" in api.value && api.value["attribution"].Obj?
            && AllBut(Some(api.value - {"attribution"}), data - {"attribution"},
                      {"private", "views", "modified", "deleted_at", "public"} + owner)
            && AllBut(Some(api.value["attribution"].fields), data["attribution"].fields, {"name"})
  {
    var owner := if HidesItsOwner(data) then {"user_uid"} else {};
    PublishedFields(data);
    Withheld(data - {"attribution"}, {"private", "views", "modified", "deleted_at", "public"} + owner,
             {"private", "views", "modified", "deleted_at", "public"} + owner);
    Withheld(data["attribution"].fields, {"name"}, {"name"});
  }

  lemma PublishedFields(data: Dict)
    requires "attribution" in data && data["attribution"].Obj?
    ensures var owner := if HidesItsOwner(data) then {"user_uid"} else {};
            var proj := Without(PublishedDeck(data), DECK_API_EXCLUDE);
            && "attribution" in proj && proj["attribution"] == data["attribution"]
            && proj - {"attribution"}
               == Without(data - {"attribution"}, {"private", "views", "modified", "deleted_at", "public"} + owner)
  {
    assert Anonymous(data) && !BoolField(data, "winner") <==> HidesItsOwner(data);
    var withheld := {"private", "views"} + if HidesItsOwner(data) then {"user_uid"} else {};
    assert PublishedDeck(data) == Without(data, withheld);
    assert DECK_API_EXCLUDE == {"private", "views", "modified", "deleted_at", "public"};
    assert "attribution" !in withheld && "attribution" !in DECK_API_EXCLUDE;
  }

  /** Sanctions are for members, whole. Leagues are for everybody, without the organizers for the
      public and without the sync fields for the API. Promos are for everybody but the API,
      without the holdings below the full level. */
  lemma OtherObjects(data: Dict, stamp: nat)
    ensures var row := Project(SANCTION, data, stamp);
            row.pub.None? && row.api.None? && row.mem == Some(data) && row.full == data
    ensures var row := Project(LEAGUE, data, stamp);
            && AllBut(row.pub, data, {"organizers_uids"}) && AllBut(row.api, data, {"modified", "deleted_at"})
            && row.mem == Some(data) && row.full == data
    ensures var row := Project(PROMO, data, stamp);
            && AllBut(row.pub, data, {"holdings"}) && AllBut(row.mem, data, {"holdings"})
            && row.api.None? && row.full == data
  {
  }
}

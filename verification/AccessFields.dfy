/** The field sets the projections are cut along, and which of them share nothing. */
module AccessFields {

  const USER_PUBLIC_FIELDS: set<string> :=
    {"uid", "modified", "deleted_at", "name", "country", "roles", "vekn_prefix"}
  const USER_CONTACT_FIELDS: set<string> :=
    {"contact_email", "contact_discord", "discord_id", "contact_phone", "phone_is_whatsapp"}
  const USER_COMMUNITY_LINKS: set<string> := {"community_links"}
  const USER_LINKS_ONLY_FIELDS: set<string> :=
    {"uid", "modified", "deleted_at", "country", "roles", "community_links"}
  const USER_RATING_FIELDS: set<string> :=
    {"constructed_online", "constructed_offline", "limited_online", "limited_offline", "wins"}
  const USER_MEMBER_FIELDS: set<string> :=
    USER_PUBLIC_FIELDS
    + {"vekn_id", "city", "city_geoname_id", "state", "nickname", "avatar_path"}
    + {"deceased_at", "anonymized_at"} + {"discord_id"} + USER_RATING_FIELDS
  const USER_OWNER_ONLY_FIELDS: set<string> := {"calendar_token", "agenda_hidden", "agenda_added"}
  const API_SYNC_FIELDS: set<string> := {"modified", "deleted_at"}
  const USER_API_CITY_FIELDS: set<string> := {"city", "city_geoname_id"}
  const USER_API_LISTED_FIELDS: set<string> :=
    {"uid", "vekn_id", "country", "roles", "community_links"} + USER_RATING_FIELDS
  const USER_API_FIELDS: set<string> := USER_API_LISTED_FIELDS + USER_API_CITY_FIELDS
  const USER_API_CITY_ROLES: set<string> := {"IC", "NC", "Prince", "Rulemonger", "Judge", "Sheriff"}
  const TOURNAMENT_PUBLIC_FIELDS: set<string> :=
    {"uid", "modified", "deleted_at", "name", "format", "rank", "online", "start", "finish",
     "timezone", "country", "city", "city_geoname_id", "league_uid", "state", "banner_path",
     "venue", "venue_url", "address", "map_url", "registration_url", "description",
     "external_ids", "event_code", "proxies", "multideck", "decklist_required", "max_rounds",
     "max_players", "open_rounds", "self_organized_rounds"}
  const TOURNAMENT_MEMBER_EXCLUDE: set<string> :=
    {"checkin_code", "vekn_pushed_at", "vekn_results_stale", "vekn_event_absent_at", "twda_status"}
  const TOURNAMENT_API_EXCLUDE: set<string> :=
    TOURNAMENT_MEMBER_EXCLUDE + API_SYNC_FIELDS
    + {"announcements", "raffles", "promos_distributed", "promo_stock_source_uid", "offline_device_id"}
  const PLAYER_API_EXCLUDE: set<string> :=
    {"display_name", "missing_decklist", "payment_status", "waitlisted"}
  const DECK_API_EXCLUDE: set<string> := API_SYNC_FIELDS + {"public", "private", "views"}

  /** The contacts only an official's role publishes. The Discord id is not one of them:
      members read it of everybody. */
  const ROLE_CONTACTS: set<string> := {"contact_email", "contact_discord", "contact_phone", "phone_is_whatsapp"}

  // ---- Sets apart -------------------------------------------------------------------

  lemma ContactsApart()
    ensures ROLE_CONTACTS !! USER_MEMBER_FIELDS
  {
  }

  lemma ContactsApartElsewhere()
    ensures ROLE_CONTACTS !! USER_API_FIELDS && ROLE_CONTACTS !! USER_LINKS_ONLY_FIELDS
  {
  }

  lemma OwnerOnlyApart()
    ensures USER_OWNER_ONLY_FIELDS !! USER_MEMBER_FIELDS
  {
  }

  lemma OwnerOnlyApartFromContacts()
    ensures USER_OWNER_ONLY_FIELDS !! USER_CONTACT_FIELDS + USER_COMMUNITY_LINKS
  {
  }

  lemma CityApart()
    ensures USER_API_LISTED_FIELDS !! USER_API_CITY_FIELDS
  {
  }

  lemma BookkeepingApart()
    ensures TOURNAMENT_MEMBER_EXCLUDE !! TOURNAMENT_PUBLIC_FIELDS
  {
  }
}

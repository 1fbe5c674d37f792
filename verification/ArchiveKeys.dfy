/** twda_import.py: which tournament holds which archive key, and how one write
    moves that. */
module ArchiveKeys {
  import opened Base

  /** A city as the gazetteer knows it. */
  datatype City = City(name: string, geonameId: nat, countryCode: string)

  datatype Venue = Venue(city: Option<string>, geonameId: Option<nat>, online: bool, country: Option<string>)

  predicate Located(v: Venue) {
    v.geonameId.Some? && v.geonameId.value != 0
  }

  /** The later venue is no other place: the country and the medium are the same, and a venue
      located already, or online, is as it was. */
  predicate KeepsPlace(before: Venue, after: Venue) {
    && after.online == before.online && after.country == before.country
    && (Located(before) || before.online ==> after == before)
  }

  /** `twda` marks a tournament reconstructed from the archive, `twdaEntry` one an
      entry was attached to; `rest` stands for every other field. */
  datatype Tournament = Tournament(
    twda: Option<string>, twdaEntry: Option<string>, winner: string, deleted: bool, venue: Venue, modified: nat,
    rest: Json)

  type Corpus = map<Uid, Tournament>

  function Key(t: Tournament): Option<string> {
    if t.twda.Some? then t.twda else t.twdaEntry
  }

  predicate NonEmpty(key: Option<string>) {
    key.Some? && key.value != ""
  }

  predicate IsLive(ts: Corpus, u: Uid) {
    u in ts && !ts[u].deleted
  }

  predicate HoldsKey(ts: Corpus, u: Uid, e: string) {
    IsLive(ts, u) && Key(ts[u]) == Some(e)
  }

  ghost predicate Held(ts: Corpus, e: string) {
    exists u :: HoldsKey(ts, u, e)
  }

  /** Each key is held by at most one live tournament, and each live tournament
      holds at most one key, never an empty one. */
  ghost predicate Bijective(ts: Corpus) {
    && (forall u, v, e :: HoldsKey(ts, u, e) && HoldsKey(ts, v, e) ==> u == v)
    && (forall u :: IsLive(ts, u) ==>
          (ts[u].twda.None? || ts[u].twdaEntry.None?) && Key(ts[u]) != Some(""))
  }

  /** Later state: live tournaments stay live, with their winner and their place, and keep the
      key they hold. */
  ghost predicate Grows(before: Corpus, after: Corpus) {
    forall u :: u in before ==>
      && u in after
      && after[u].deleted == before[u].deleted
      && after[u].winner == before[u].winner
      && KeepsPlace(before[u].venue, after[u].venue)
      && (Key(before[u]).Some? ==> Key(after[u]) == Key(before[u]))
  }

  lemma GrowsOn(a: Corpus, b: Corpus, c: Corpus)
    requires Grows(a, b) && Grows(b, c)
    ensures Grows(a, c)
  {
    forall u | u in a
      ensures
        && u in c && c[u].deleted == a[u].deleted && c[u].winner == a[u].winner
        && KeepsPlace(a[u].venue, c[u].venue)
        && (Key(a[u]).Some? ==> Key(c[u]) == Key(a[u]))
    {
      assert u in b;
    }
  }

  lemma GrowsKeepsKeys(before: Corpus, after: Corpus, u: Uid, e: string)
    requires Grows(before, after) && HoldsKey(before, u, e)
    ensures HoldsKey(after, u, e)
  {
  }

  // ---- The city an attachment brings along ------------------------------------------

  function Upper(s: string): string {
    seq(|s|, i requires 0 <= i < |s| => if 'a' <= s[i] <= 'z' then s[i] - 'a' + 'A' else s[i])
  }

  predicate InCountryOf(v: Venue, city: City) {
    Upper(if v.country.Some? then v.country.value else "") == Upper(city.countryCode)
  }

  predicate SameLetter(a: char, b: char) {
    a == b || ('a' <= a <= 'z' && b == a - 'a' + 'A') || ('a' <= b <= 'z' && a == b - 'a' + 'A')
  }

  /** Countries are compared letter by letter, upper or lower case. */
  lemma CountriesIgnoreCase(v: Venue, city: City)
    ensures var country := if v.country.Some? then v.country.value else "";
            InCountryOf(v, city) <==>
              && |country| == |city.countryCode|
              && forall i :: 0 <= i < |country| ==> SameLetter(country[i], city.countryCode[i])
  {
    var country, code := if v.country.Some? then v.country.value else "", city.countryCode;
    if InCountryOf(v, city) {
      assert |Upper(country)| == |Upper(code)|;
      forall i | 0 <= i < |country| ensures SameLetter(country[i], code[i]) {
        assert Upper(country)[i] == Upper(code)[i];
      }
    }
  }

  function Filled(v: Venue, city: Option<City>): Venue {
    if city.Some? && !Located(v) && !v.online && InCountryOf(v, city.value)
    then v.(city := Some(city.value.name), geonameId := Some(city.value.geonameId))
    else v
  }

  /** The fill never moves an event: a venue located already, an online event and one in
      another country stay as they are, every other one gains the city, and filling again
      changes nothing. */
  lemma FillingMovesNothing(v: Venue, city: Option<City>)
    ensures KeepsPlace(v, Filled(v, city)) && Filled(Filled(v, city), city) == Filled(v, city)
    ensures city.Some? && city.value.geonameId != 0 ==>
      (Located(v) || v.online || !InCountryOf(v, city.value) <==> Filled(v, city) == v)
  {
  }

  /** An attachment that can never be settled: the target is gone or holds a key. */
  predicate Unsettlable(ts: Corpus, target: Uid) {
    !IsLive(ts, target) || Key(ts[target]).Some?
  }

  lemma {:induction false} StampKeeps(ts: Corpus, u: Uid, e: string, stamped: Tournament)
    requires Bijective(ts) && IsLive(ts, u) && Key(ts[u]).None? && !Held(ts, e) && e != ""
    requires stamped == ts[u].(twdaEntry := Some(e), venue := stamped.venue, modified := stamped.modified)
    requires KeepsPlace(ts[u].venue, stamped.venue)
    ensures Bijective(ts[u := stamped]) && Grows(ts, ts[u := stamped])
    ensures HoldsKey(ts[u := stamped], u, e)
    ensures forall x :: Held(ts[u := stamped], x) <==> Held(ts, x) || x == e
  {
    KeyGained(ts, u, e, stamped);
  }

  lemma CreateKeeps(ts: Corpus, u: Uid, e: string, made: Tournament)
    requires Bijective(ts) && u !in ts && !Held(ts, e) && e != ""
    requires made.twda == Some(e) && made.twdaEntry.None? && !made.deleted
    ensures Bijective(ts[u := made]) && Grows(ts, ts[u := made])
    ensures HoldsKey(ts[u := made], u, e)
    ensures forall x :: Held(ts[u := made], x) <==> Held(ts, x) || x == e
  {
    KeyGained(ts, u, e, made);
  }

  lemma KeyGained(ts: Corpus, u: Uid, e: string, t: Tournament)
    requires Bijective(ts) && !Held(ts, e) && e != ""
    requires u in ts ==> Key(ts[u]).None?
    requires !t.deleted && Key(t) == Some(e) && (t.twda.None? || t.twdaEntry.None?)
    ensures Bijective(ts[u := t])
    ensures forall x :: Held(ts[u := t], x) <==> Held(ts, x) || x == e
  {
    var us := ts[u := t];
    forall v, x
      ensures HoldsKey(us, v, x) <==> HoldsKey(ts, v, x) || (v == u && x == e)
    {
    }
    forall x
      ensures Held(us, x) <==> Held(ts, x) || x == e
    {
      if Held(ts, x) {
        var v :| HoldsKey(ts, v, x);
        assert HoldsKey(us, v, x);
      }
      if x == e {
        assert HoldsKey(us, u, x);
      }
    }
  }

  // ---- Fresh identifiers ------------------------------------------------------------

  function Stroke(n: nat): string {
    seq(n, _ => 'u')
  }

  lemma {:induction false} LongerThanAll(taken: set<string>) returns (n: nat)
    ensures forall u :: u in taken ==> |u| < n
    decreases taken
  {
    n := 1;
    if taken != {} {
      var u :| u in taken;
      var m := LongerThanAll(taken - {u});
      n := if m > |u| then m else |u| + 1;
    }
  }

  /** There is always an identifier nobody uses. */
  lemma SomeUnused(taken: set<string>)
    ensures exists u: Uid :: u !in taken && u != ""
  {
    var n := LongerThanAll(taken + {""});
    assert |Stroke(n)| == n;
    assert Stroke(n) !in taken && Stroke(n) != "";
  }
}

/** twda_import.py: reconciling the archive against the corpus, one atomic write
    at a time, with a crash possible before any write. */
module ArchiveImport {
  import opened Base
  import opened ArchiveKeys

  /** `city` is the one the gazetteer matches to the entry's place, if any. */
  datatype Entry = Entry(id: string, cards: map<string, nat>, city: Option<City>, online: bool,
                         country: Option<string>, rest: Json)

  /** The tournament made up for an entry. */
  function MadeUp(entry: Entry, winner: Uid, now: nat): Tournament {
    var venue := if entry.city.Some? then Venue(Some(entry.city.value.name), Some(entry.city.value.geonameId),
                                                entry.online, entry.country)
                 else Venue(None, None, entry.online, entry.country);
    Tournament(Some(entry.id), None, winner, false, venue, now, entry.rest)
  }

  /** The tournament an entry is attached to, with its key and, where it had none, its city. */
  function Stamped(t: Tournament, e: string, city: Option<City>, now: nat): Tournament {
    t.(twdaEntry := Some(e), venue := Filled(t.venue, city), modified := now)
  }

  /** The reviewed decisions: attach an entry to a tournament, or reconstruct the
      event with the given winner. An undecided entry is absent. */
  datatype Decision = Attach(target: Uid) | Create(winner: Uid)

  type Decisions = map<string, Decision>

  datatype Deck = Deck(tournament: Uid, owner: Uid, deleted: bool, rest: Json)

  /** Archive ids are not empty and do not repeat. */
  ghost predicate WellFormed(entries: seq<Entry>) {
    && (forall i :: 0 <= i < |entries| ==> entries[i].id != "")
    && (forall i, j :: 0 <= i < j < |entries| ==> entries[i].id != entries[j].id)
  }

  function TargetsOf(decisions: Decisions): set<Uid> {
    set e | e in decisions && decisions[e].Attach? :: decisions[e].target
  }

  // ---- What a run has to achieve ----------------------------------------------------

  /** The tournament an entry belongs to: the one that holds its key, or else the
      one a decision attaches it to. */
  ghost predicate ResolvesTo(ts: Corpus, decisions: Decisions, e: string, u: Uid) {
    HoldsKey(ts, u, e) || (!Held(ts, e) && e in decisions && decisions[e] == Attach(u))
  }

  /** Nothing is left to write for an entry's tournament. */
  ghost predicate Done(ts: Corpus, decisions: Decisions, bulk: bool, e: string) {
    Held(ts, e) || e !in decisions || bulk || (decisions[e].Attach? && Unsettlable(ts, decisions[e].target))
  }

  ghost predicate Processed(ts: Corpus, decisions: Decisions, bulk: bool, resolved: map<string, Uid>, e: string) {
    && Done(ts, decisions, bulk, e)
    && (e in resolved ==> ResolvesTo(ts, decisions, e, resolved[e]))
    && (e !in resolved ==> !Held(ts, e) && (e !in decisions || decisions[e].Create?))
  }

  /** The tournaments by key; where keys are held once, there is only one such map. */
  ghost predicate IsIndex(known: map<string, Uid>, ts: Corpus) {
    && (forall e :: e in known <==> Held(ts, e))
    && (forall e :: e in known ==> HoldsKey(ts, known[e], e))
  }

  method TournamentsByKey(ts: Corpus) returns (known: map<string, Uid>)
    ensures IsIndex(known, ts)
  {
    known := map[];
    var rest := ts.Keys;
    while rest != {}
      invariant rest <= ts.Keys
      invariant forall e :: e in known ==> HoldsKey(ts, known[e], e)
      invariant forall u, e :: HoldsKey(ts, u, e) && u !in rest ==> e in known
      decreases rest
    {
      var u :| u in rest;
      rest := rest - {u};
      if !ts[u].deleted && Key(ts[u]).Some? {
        known := known[Key(ts[u]).value := u];
      }
    }
  }

  function Pending(entries: seq<Entry>, decisions: Decisions, known: map<string, Uid>): nat {
    if entries == [] then 0
    else
      var e := entries[|entries| - 1].id;
      Pending(entries[..|entries| - 1], decisions, known) + (if e !in known && e in decisions then 1 else 0)
  }

  /** The first n entries still to be placed: decided, and held by no tournament. */
  ghost function Unplaced(ts: Corpus, entries: seq<Entry>, n: nat, decisions: Decisions): set<nat>
    requires n <= |entries|
  {
    set i: nat | i < n && entries[i].id in decisions && !Held(ts, entries[i].id)
  }

  lemma OneUnplacedMore(ts: Corpus, entries: seq<Entry>, n: nat, decisions: Decisions)
    requires n < |entries|
    ensures var e := entries[n].id;
            |Unplaced(ts, entries, n + 1, decisions)|
              == |Unplaced(ts, entries, n, decisions)| + if e in decisions && !Held(ts, e) then 1 else 0
  {
    var e := entries[n].id;
    assert Unplaced(ts, entries, n + 1, decisions)
      == Unplaced(ts, entries, n, decisions) + if e in decisions && !Held(ts, e) then {n} else {};
  }

  lemma {:induction false} PendingCounts(ts: Corpus, known: map<string, Uid>, entries: seq<Entry>, n: nat,
                                         decisions: Decisions)
    requires IsIndex(known, ts) && n <= |entries|
    ensures Pending(entries[..n], decisions, known) == |Unplaced(ts, entries, n, decisions)|
  {
    if n == 0 {
      assert Unplaced(ts, entries, 0, decisions) == {};
    } else {
      var e := entries[n - 1].id;
      PendingCounts(ts, known, entries, n - 1, decisions);
      assert entries[..n][..n - 1] == entries[..n - 1];
      assert Held(ts, e) <==> e in known;
      OneUnplacedMore(ts, entries, n - 1, decisions);
    }
  }

  predicate OverCap(pending: nat, maxCreates: Option<nat>) {
    maxCreates.Some? && pending > maxCreates.value
  }

  // ---- One entry --------------------------------------------------------------------

  /** Which writes a step made, and whether it crashed before one. */
  datatype Outcome = Kept | Settled | Created | Crashed

  /** The tournament is the one an entry's decision names, stamped with the entry's
      key, or the event made up for it, with the winner decided on; whenever that was. */
  predicate Placed(before: Corpus, u: Uid, t: Tournament, entry: Entry, decisions: Decisions) {
    entry.id in decisions &&
    match decisions[entry.id]
    case Attach(target) =>
      && u == target && IsLive(before, u) && Key(before[u]).None?
      && t == Stamped(before[u], entry.id, entry.city, t.modified)
    case Create(winner) =>
      u !in before && u != "" && t == MadeUp(entry, winner, t.modified)
  }

  /** Every tournament is as it was, or one of the first n entries placed it. */
  ghost predicate Explained(before: Corpus, ts: Corpus, entries: seq<Entry>, n: nat, decisions: Decisions)
    requires n <= |entries|
  {
    forall u :: u in ts ==>
      (u in before && ts[u] == before[u]) || exists k :: 0 <= k < n && Placed(before, u, ts[u], entries[k], decisions)
  }

  lemma ExplainedOneMore(before: Corpus, ts: Corpus, entries: seq<Entry>, n: nat, decisions: Decisions, u: Uid,
                         t: Tournament)
    requires n < |entries| && Explained(before, ts, entries, n, decisions)
    requires Placed(before, u, t, entries[n], decisions)
    ensures Explained(before, ts[u := t], entries, n + 1, decisions)
  {
    var us := ts[u := t];
    forall v | v in us && !(v in before && us[v] == before[v])
      ensures exists k :: 0 <= k < n + 1 && Placed(before, v, us[v], entries[k], decisions)
    {
      if v != u {
        var k :| 0 <= k < n && Placed(before, v, ts[v], entries[k], decisions);
      }
    }
  }

  lemma UnkeyedIsUntouched(before: Corpus, ts: Corpus, entries: seq<Entry>, n: nat, decisions: Decisions, u: Uid)
    requires n <= |entries| && Explained(before, ts, entries, n, decisions) && u in ts && Key(ts[u]).None?
    ensures u in before && ts[u] == before[u]
  {
  }

  /** No decision attaches an entry to an event made up since. */
  ghost predicate NoTargetMadeUp(before: Corpus, ts: Corpus, decisions: Decisions) {
    forall u :: u in ts && u !in before ==> u !in TargetsOf(decisions)
  }

  /** How far the run has got: entries handled so far, with the keys they may have added. */
  ghost predicate SoFar(before: Corpus, ts: Corpus, entries: seq<Entry>, n: nat, decisions: Decisions, bulk: bool,
                        resolved: map<string, Uid>)
    requires n <= |entries|
  {
    && Bijective(ts) && Grows(before, ts)
    && NoTargetMadeUp(before, ts, decisions)
    && PlacedSoFar(before, ts, entries, n) && NotedSoFar(resolved, entries, n)
    && (forall k :: 0 <= k < n ==> Processed(ts, decisions, bulk, resolved, entries[k].id))
    && (bulk ==> ts == before)
    && Explained(before, ts, entries, n, decisions)
  }

  /** A write for one entry leaves what was achieved for another. */
  lemma StillProcessed(ts: Corpus, us: Corpus, decisions: Decisions, bulk: bool, resolved: map<string, Uid>,
                       e: string, other: string, u: Uid)
    requires Processed(ts, decisions, bulk, resolved, e) && e != other
    requires Bijective(ts) && Bijective(us) && Grows(ts, us)
    requires forall x :: Held(us, x) <==> Held(ts, x) || x == other
    requires NoTargetMadeUp(ts, us, decisions)
    ensures Processed(us, decisions, bulk, resolved[other := u], e)
    ensures Processed(us, decisions, bulk, resolved, e)
  {
    if e in decisions && decisions[e].Attach? {
      assert decisions[e].target in TargetsOf(decisions);
    }
  }

  // ---- Decks ------------------------------------------------------------------------

  ghost predicate HasDeck(decks: map<Uid, Deck>, tournament: Uid, owner: Uid) {
    exists d :: d in decks && !decks[d].deleted && decks[d].tournament == tournament && decks[d].owner == owner
  }

  /** The entry's event is one we hold, with a winner to own the deck the entry lists. */
  predicate WantsDeck(ts: Corpus, resolved: map<string, Uid>, entry: Entry) {
    && entry.id in resolved && resolved[entry.id] != ""
    && IsLive(ts, resolved[entry.id])
    && ts[resolved[entry.id]].winner != "" && entry.cards != map[]
  }

  ghost predicate DeckDone(ts: Corpus, decks: map<Uid, Deck>, resolved: map<string, Uid>, entry: Entry) {
    WantsDeck(ts, resolved, entry) ==>
      HasDeck(decks, resolved[entry.id], ts[resolved[entry.id]].winner)
  }

  /** Later decks: the old ones, unchanged, and new ones among them. */
  ghost predicate DecksGrow(before: map<Uid, Deck>, after: map<Uid, Deck>) {
    forall d :: d in before ==> d in after && after[d] == before[d]
  }

  /** The owners of live decks, by tournament. */
  function OwnersOf(decks: map<Uid, Deck>, tournament: Uid): set<Uid> {
    set d | d in decks && !decks[d].deleted && decks[d].tournament == tournament :: decks[d].owner
  }

  lemma OwnersHaveDecks(decks: map<Uid, Deck>, tournament: Uid, owner: Uid)
    ensures owner in OwnersOf(decks, tournament) <==> HasDeck(decks, tournament, owner)
  {
  }

  lemma DeckStays(before: map<Uid, Deck>, after: map<Uid, Deck>, tournament: Uid, owner: Uid)
    requires DecksGrow(before, after) && HasDeck(before, tournament, owner)
    ensures HasDeck(after, tournament, owner)
  {
    var d :| d in before && !before[d].deleted && before[d].tournament == tournament && before[d].owner == owner;
    assert d in after;
  }

  /** A deck the import has reason to add: the winner's, where he had none. */
  ghost predicate IsWinnersDeck(ts: Corpus, existing: map<Uid, Deck>, resolved: map<string, Uid>, entry: Entry,
                                deck: Deck)
  {
    && WantsDeck(ts, resolved, entry)
    && !DeckDone(ts, existing, resolved, entry)
    && deck == Deck(resolved[entry.id], ts[resolved[entry.id]].winner, false, entry.rest)
  }

  ghost predicate AllDecksDone(ts: Corpus, decks: map<Uid, Deck>, resolved: map<string, Uid>, entries: seq<Entry>,
                               n: nat)
    requires n <= |entries|
  {
    forall k :: 0 <= k < n ==> DeckDone(ts, decks, resolved, entries[k])
  }

  ghost predicate NewDecksExplained(ts: Corpus, existing: map<Uid, Deck>, decks: map<Uid, Deck>,
                                    resolved: map<string, Uid>, entries: seq<Entry>, n: nat)
    requires n <= |entries|
  {
    forall d :: d in decks && d !in existing ==>
      exists k :: 0 <= k < n && IsWinnersDeck(ts, existing, resolved, entries[k], decks[d])
  }

  ghost predicate Imported(ts: Corpus, existing: map<Uid, Deck>, decks: map<Uid, Deck>, resolved: map<string, Uid>,
                           entries: seq<Entry>, n: nat)
    requires n <= |entries|
  {
    && DecksGrow(existing, decks)
    && AllDecksDone(ts, decks, resolved, entries, n)
    && NewDecksExplained(ts, existing, decks, resolved, entries, n)
    && (AllDecksDone(ts, existing, resolved, entries, n) ==> decks == existing)
  }

  lemma ImportedOneMore(ts: Corpus, existing: map<Uid, Deck>, decks: map<Uid, Deck>, resolved: map<string, Uid>,
                        entries: seq<Entry>, n: nat)
    requires n < |entries| && Imported(ts, existing, decks, resolved, entries, n)
    requires DeckDone(ts, existing, resolved, entries[n])
    ensures Imported(ts, existing, decks, resolved, entries, n + 1)
  {
    if WantsDeck(ts, resolved, entries[n]) {
      DeckStays(existing, decks, resolved[entries[n].id], ts[resolved[entries[n].id]].winner);
    }
  }

  lemma DeckAdded(decks: map<Uid, Deck>, d: Uid, deck: Deck)
    requires d !in decks && !deck.deleted
    ensures DecksGrow(decks, decks[d := deck]) && HasDeck(decks[d := deck], deck.tournament, deck.owner)
  {
    var more := decks[d := deck];
    assert d in more && more[d] == deck;
  }

  lemma DeckDoneStays(ts: Corpus, before: map<Uid, Deck>, after: map<Uid, Deck>, resolved: map<string, Uid>,
                      entry: Entry)
    requires DecksGrow(before, after) && DeckDone(ts, before, resolved, entry)
    ensures DeckDone(ts, after, resolved, entry)
  {
    if WantsDeck(ts, resolved, entry) {
      DeckStays(before, after, resolved[entry.id], ts[resolved[entry.id]].winner);
    }
  }

  lemma AllDecksStayDone(ts: Corpus, before: map<Uid, Deck>, after: map<Uid, Deck>, resolved: map<string, Uid>,
                         entries: seq<Entry>, n: nat)
    requires n <= |entries| && DecksGrow(before, after) && AllDecksDone(ts, before, resolved, entries, n)
    ensures AllDecksDone(ts, after, resolved, entries, n)
  {
    forall k | 0 <= k < n
      ensures DeckDone(ts, after, resolved, entries[k])
    {
      DeckDoneStays(ts, before, after, resolved, entries[k]);
    }
  }

  lemma NewDeckExplained(ts: Corpus, existing: map<Uid, Deck>, decks: map<Uid, Deck>, resolved: map<string, Uid>,
                         entries: seq<Entry>, n: nat, d: Uid, deck: Deck)
    requires n < |entries| && NewDecksExplained(ts, existing, decks, resolved, entries, n)
    requires IsWinnersDeck(ts, existing, resolved, entries[n], deck)
    ensures NewDecksExplained(ts, existing, decks[d := deck], resolved, entries, n + 1)
  {
    forall x | x in decks[d := deck] && x !in existing
      ensures exists k :: 0 <= k < n + 1 && IsWinnersDeck(ts, existing, resolved, entries[k], decks[d := deck][x])
    {
      if x != d {
        var k :| 0 <= k < n && IsWinnersDeck(ts, existing, resolved, entries[k], decks[x]);
      }
    }
  }

  lemma WinnersDeckDone(ts: Corpus, existing: map<Uid, Deck>, decks: map<Uid, Deck>, resolved: map<string, Uid>,
                        entry: Entry, d: Uid, deck: Deck)
    requires d !in decks && IsWinnersDeck(ts, existing, resolved, entry, deck)
    ensures DecksGrow(decks, decks[d := deck]) && DeckDone(ts, decks[d := deck], resolved, entry)
  {
    DeckAdded(decks, d, deck);
  }

  lemma ImportedWithDeck(ts: Corpus, existing: map<Uid, Deck>, decks: map<Uid, Deck>, resolved: map<string, Uid>,
                         entries: seq<Entry>, n: nat, d: Uid, deck: Deck)
    requires n < |entries| && Imported(ts, existing, decks, resolved, entries, n)
    requires d !in decks && IsWinnersDeck(ts, existing, resolved, entries[n], deck)
    ensures Imported(ts, existing, decks[d := deck], resolved, entries, n + 1)
  {
    WinnersDeckDone(ts, existing, decks, resolved, entries[n], d, deck);
    AllDecksStayDone(ts, decks, decks[d := deck], resolved, entries, n);
    NewDeckExplained(ts, existing, decks, resolved, entries, n, d, deck);
    assert !AllDecksDone(ts, existing, resolved, entries, n + 1);
  }

  // ---- One deck an entry ------------------------------------------------------------

  predicate Lacks(ts: Corpus, existing: map<Uid, Deck>, resolved: map<string, Uid>, entry: Entry) {
    WantsDeck(ts, resolved, entry)
    && ts[resolved[entry.id]].winner !in OwnersOf(existing, resolved[entry.id])
  }

  lemma LacksIffNotDone(ts: Corpus, existing: map<Uid, Deck>, resolved: map<string, Uid>, entry: Entry)
    ensures Lacks(ts, existing, resolved, entry)
       <==> WantsDeck(ts, resolved, entry) && !DeckDone(ts, existing, resolved, entry)
  {
    if WantsDeck(ts, resolved, entry) {
      OwnersHaveDecks(existing, resolved[entry.id], ts[resolved[entry.id]].winner);
    }
  }

  function Lacking(ts: Corpus, existing: map<Uid, Deck>, resolved: map<string, Uid>, entries: seq<Entry>, n: nat):
    set<nat>
    requires n <= |entries|
  {
    set k: nat | k < n && Lacks(ts, existing, resolved, entries[k])
  }

  function WinnersDeck(ts: Corpus, resolved: map<string, Uid>, entry: Entry): Deck
    requires WantsDeck(ts, resolved, entry)
  {
    Deck(resolved[entry.id], ts[resolved[entry.id]].winner, false, entry.rest)
  }

  /** The named deck of one entry. */
  ghost predicate MadeAt(ts: Corpus, existing: map<Uid, Deck>, decks: map<Uid, Deck>, resolved: map<string, Uid>,
                         entry: Entry, d: Uid) {
    && Lacks(ts, existing, resolved, entry)
    && d in decks && d !in existing && decks[d] == WinnersDeck(ts, resolved, entry)
  }

  /** `made` names a new deck for each of the first n entries that lack one. */
  ghost predicate MadeFor(ts: Corpus, existing: map<Uid, Deck>, decks: map<Uid, Deck>, resolved: map<string, Uid>,
                          entries: seq<Entry>, n: nat, made: map<nat, Uid>)
    requires n <= |entries|
  {
    && made.Keys == Lacking(ts, existing, resolved, entries, n)
    && forall k :: k in made ==> k < n && MadeAt(ts, existing, decks, resolved, entries[k], made[k])
  }

  /** Each new deck is named once. */
  ghost predicate NamesEach(existing: map<Uid, Deck>, decks: map<Uid, Deck>, made: map<nat, Uid>) {
    && (forall k, l :: k in made && l in made && k != l ==> made[k] != made[l])
    && made.Values == decks.Keys - existing.Keys
  }

  lemma LackingMore(ts: Corpus, existing: map<Uid, Deck>, resolved: map<string, Uid>, entries: seq<Entry>, n: nat)
    requires n < |entries|
    ensures Lacking(ts, existing, resolved, entries, n + 1)
         == Lacking(ts, existing, resolved, entries, n)
            + (if Lacks(ts, existing, resolved, entries[n]) then {n} else {})
    ensures n !in Lacking(ts, existing, resolved, entries, n)
  {
  }

  lemma MadeForMore(ts: Corpus, existing: map<Uid, Deck>, decks: map<Uid, Deck>, resolved: map<string, Uid>,
                    entries: seq<Entry>, n: nat, made: map<nat, Uid>, d: Uid, deck: Deck)
    requires n < |entries| && MadeFor(ts, existing, decks, resolved, entries, n, made)
    requires Lacks(ts, existing, resolved, entries[n]) && d !in decks && d !in existing
    requires deck == WinnersDeck(ts, resolved, entries[n])
    ensures MadeFor(ts, existing, decks[d := deck], resolved, entries, n + 1, made[n := d])
    ensures n !in made
  {
    LackingMore(ts, existing, resolved, entries, n);
    var more, next := decks[d := deck], made[n := d];
    assert next.Keys == made.Keys + {n};
    forall k | k in next ensures k < n + 1 && MadeAt(ts, existing, more, resolved, entries[k], next[k]) {
      if k != n {
        assert MadeAt(ts, existing, decks, resolved, entries[k], made[k]);
      }
    }
  }

  lemma MadeForSkip(ts: Corpus, existing: map<Uid, Deck>, decks: map<Uid, Deck>, resolved: map<string, Uid>,
                    entries: seq<Entry>, n: nat, made: map<nat, Uid>)
    requires n < |entries| && MadeFor(ts, existing, decks, resolved, entries, n, made)
    requires !Lacks(ts, existing, resolved, entries[n])
    ensures MadeFor(ts, existing, decks, resolved, entries, n + 1, made)
  {
    LackingMore(ts, existing, resolved, entries, n);
  }

  lemma NamesOneMore(existing: map<Uid, Deck>, decks: map<Uid, Deck>, made: map<nat, Uid>, n: nat, d: Uid, deck: Deck)
    requires NamesEach(existing, decks, made) && n !in made && d !in decks && d !in existing
    ensures NamesEach(existing, decks[d := deck], made[n := d])
  {
    var next := made[n := d];
    forall k | k in made ensures made[k] != d {
      assert made[k] in made.Values;
    }
    forall x ensures x in next.Values <==> x in made.Values || x == d {
      if x in made.Values {
        var k :| k in made && made[k] == x;
        assert next[k] == x;
      }
      if x == d {
        assert next[n] == x;
      }
    }
  }

  /** Where the deck loop stands after n entries. */
  ghost predicate DecksSoFar(ts: Corpus, existing: map<Uid, Deck>, decks: map<Uid, Deck>, resolved: map<string, Uid>,
                             entries: seq<Entry>, n: nat, made: map<nat, Uid>)
    requires n <= |entries|
  {
    && Imported(ts, existing, decks, resolved, entries, n)
    && MadeFor(ts, existing, decks, resolved, entries, n, made)
    && NamesEach(existing, decks, made)
  }

  lemma NoDecksYet(ts: Corpus, existing: map<Uid, Deck>, resolved: map<string, Uid>, entries: seq<Entry>)
    ensures DecksSoFar(ts, existing, existing, resolved, entries, 0, map[])
  {
  }

  lemma EntrySkipped(ts: Corpus, existing: map<Uid, Deck>, decks: map<Uid, Deck>, resolved: map<string, Uid>,
                     entries: seq<Entry>, n: nat, made: map<nat, Uid>)
    requires n < |entries| && DecksSoFar(ts, existing, decks, resolved, entries, n, made)
    requires !Lacks(ts, existing, resolved, entries[n])
    ensures DecksSoFar(ts, existing, decks, resolved, entries, n + 1, made)
  {
    LacksIffNotDone(ts, existing, resolved, entries[n]);
    ImportedOneMore(ts, existing, decks, resolved, entries, n);
    MadeForSkip(ts, existing, decks, resolved, entries, n, made);
  }

  lemma EntryServed(ts: Corpus, existing: map<Uid, Deck>, decks: map<Uid, Deck>, resolved: map<string, Uid>,
                    entries: seq<Entry>, n: nat, made: map<nat, Uid>, d: Uid, deck: Deck)
    requires n < |entries| && DecksSoFar(ts, existing, decks, resolved, entries, n, made)
    requires Lacks(ts, existing, resolved, entries[n]) && d !in decks && deck == WinnersDeck(ts, resolved, entries[n])
    ensures DecksSoFar(ts, existing, decks[d := deck], resolved, entries, n + 1, made[n := d])
  {
    LacksIffNotDone(ts, existing, resolved, entries[n]);
    assert d !in existing;
    ImportedWithDeck(ts, existing, decks, resolved, entries, n, d, deck);
    MadeForMore(ts, existing, decks, resolved, entries, n, made, d, deck);
    NamesOneMore(existing, decks, made, n, d, deck);
  }

  lemma OneMoreMade(made: map<nat, Uid>, n: nat, d: Uid)
    requires n !in made
    ensures |made[n := d]| == |made| + 1
  {
    assert made[n := d].Keys == made.Keys + {n};
  }

  lemma NotMadeYet(ts: Corpus, existing: map<Uid, Deck>, decks: map<Uid, Deck>, resolved: map<string, Uid>,
                   entries: seq<Entry>, n: nat, made: map<nat, Uid>)
    requires n < |entries| && DecksSoFar(ts, existing, decks, resolved, entries, n, made)
    ensures n !in made
  {
    LackingMore(ts, existing, resolved, entries, n);
  }

  /** What holds of the decks wherever the loop stops. */
  lemma DecksStopped(ts: Corpus, existing: map<Uid, Deck>, decks: map<Uid, Deck>, resolved: map<string, Uid>,
                     entries: seq<Entry>, n: nat, made: map<nat, Uid>)
    requires n <= |entries| && DecksSoFar(ts, existing, decks, resolved, entries, n, made)
    ensures DecksGrow(existing, decks) && NewDecksExplained(ts, existing, decks, resolved, entries, |entries|)
    ensures AllDecksDone(ts, existing, resolved, entries, |entries|) ==> decks == existing && made == map[]
  {
    if AllDecksDone(ts, existing, resolved, entries, |entries|) {
      forall k: nat | k < |entries| ensures !Lacks(ts, existing, resolved, entries[k]) {
        LacksIffNotDone(ts, existing, resolved, entries[k]);
      }
      assert Lacking(ts, existing, resolved, entries, n) == {};
    }
  }

  lemma LackingIsNotDone(ts: Corpus, existing: map<Uid, Deck>, resolved: map<string, Uid>, entries: seq<Entry>, n: nat)
    requires n < |entries| && Lacks(ts, existing, resolved, entries[n])
    ensures !AllDecksDone(ts, existing, resolved, entries, |entries|)
  {
    LacksIffNotDone(ts, existing, resolved, entries[n]);
  }

  /** The deck loop. `existing` is read once: it does not learn of the decks the loop adds.
      `made` names the deck added for each entry that lacked one. */
  method DecksFor(ts: Corpus, existing: map<Uid, Deck>, entries: seq<Entry>, resolved: map<string, Uid>, budget: nat)
    returns (decks: map<Uid, Deck>, created: nat, stale: nat, complete: bool, ghost made: map<nat, Uid>)
    ensures DecksGrow(existing, decks) && NewDecksExplained(ts, existing, decks, resolved, entries, |entries|)
    ensures complete ==> DecksSoFar(ts, existing, decks, resolved, entries, |entries|, made)
    ensures NamesEach(existing, decks, made) && created == |made|
    ensures if complete then created <= budget else created == budget
    ensures AllDecksDone(ts, existing, resolved, entries, |entries|) ==> complete && decks == existing && created == 0
  {
    decks, created, stale, made := existing, 0, 0, map[];
    NoDecksYet(ts, existing, resolved, entries);
    for i := 0 to |entries|
      invariant DecksSoFar(ts, existing, decks, resolved, entries, i, made)
      invariant created == |made| && created <= budget
    {
      var entry := entries[i];
      var u := if entry.id in resolved then resolved[entry.id] else "";
      if u != "" && !IsLive(ts, u) {
        stale := stale + 1;
      }
      if u == "" || !IsLive(ts, u) || ts[u].winner == "" || entry.cards == map[]
         || ts[u].winner in OwnersOf(existing, u) {
        EntrySkipped(ts, existing, decks, resolved, entries, i, made);
        continue;
      }
      if budget <= created {
        DecksStopped(ts, existing, decks, resolved, entries, i, made);
        LackingIsNotDone(ts, existing, resolved, entries, i);
        return decks, created, stale, false, made;
      }
      SomeUnused(decks.Keys);
      var d: Uid :| d !in decks.Keys && d != "";
      var deck := Deck(u, ts[u].winner, false, entry.rest);
      EntryServed(ts, existing, decks, resolved, entries, i, made, d, deck);
      NotMadeYet(ts, existing, decks, resolved, entries, i, made);
      OneMoreMade(made, i, d);
      decks := decks[d := deck];
      made := made[i := d];
      created := created + 1;
    }
    DecksStopped(ts, existing, decks, resolved, entries, |entries|, made);
    complete := true;
  }

  /** Two new decks for one event. */
  ghost predicate TwoDecks(existing: map<Uid, Deck>, decks: map<Uid, Deck>, a: Uid, b: Uid) {
    && a in decks && a !in existing && b in decks && b !in existing && a != b
    && decks[a].tournament == decks[b].tournament
  }

  /** Two entries without a deck resolved to one event. */
  predicate Clash(ts: Corpus, existing: map<Uid, Deck>, resolved: map<string, Uid>, entries: seq<Entry>, k: nat,
                  l: nat)
  {
    && k < |entries| && l < |entries| && k != l
    && Lacks(ts, existing, resolved, entries[k]) && Lacks(ts, existing, resolved, entries[l])
    && resolved[entries[k].id] == resolved[entries[l].id]
  }

  lemma ClashMakesTwo(ts: Corpus, existing: map<Uid, Deck>, decks: map<Uid, Deck>, resolved: map<string, Uid>,
                      entries: seq<Entry>, made: map<nat, Uid>, k: nat, l: nat)
    requires MadeFor(ts, existing, decks, resolved, entries, |entries|, made) && NamesEach(existing, decks, made)
    requires Clash(ts, existing, resolved, entries, k, l)
    ensures k in made && l in made && TwoDecks(existing, decks, made[k], made[l])
  {
    assert k in Lacking(ts, existing, resolved, entries, |entries|);
    assert l in Lacking(ts, existing, resolved, entries, |entries|);
  }

  lemma TwoComeOfAClash(ts: Corpus, existing: map<Uid, Deck>, decks: map<Uid, Deck>, resolved: map<string, Uid>,
                        entries: seq<Entry>, made: map<nat, Uid>, a: Uid, b: Uid) returns (k: nat, l: nat)
    requires MadeFor(ts, existing, decks, resolved, entries, |entries|, made) && NamesEach(existing, decks, made)
    requires TwoDecks(existing, decks, a, b)
    ensures Clash(ts, existing, resolved, entries, k, l)
  {
    assert a in made.Values && b in made.Values;
    k :| k in made && made[k] == a;
    l :| l in made && made[l] == b;
  }

  /** Some event has more than one new deck. */
  ghost predicate DoublesUp(existing: map<Uid, Deck>, decks: map<Uid, Deck>) {
    exists a, b :: TwoDecks(existing, decks, a, b)
  }

  ghost predicate SomeClash(ts: Corpus, existing: map<Uid, Deck>, resolved: map<string, Uid>, entries: seq<Entry>) {
    exists k, l :: Clash(ts, existing, resolved, entries, k, l)
  }

  /** An event gets more than one new deck in a run if and only if two entries without a deck
      are resolved to it: the owners are read once, before the loop. */
  lemma TwoDecksIffClash(ts: Corpus, existing: map<Uid, Deck>, decks: map<Uid, Deck>, resolved: map<string, Uid>,
                         entries: seq<Entry>, made: map<nat, Uid>)
    requires MadeFor(ts, existing, decks, resolved, entries, |entries|, made) && NamesEach(existing, decks, made)
    ensures DoublesUp(existing, decks) <==> SomeClash(ts, existing, resolved, entries)
  {
    if a, b :| TwoDecks(existing, decks, a, b) {
      var k, l := TwoComeOfAClash(ts, existing, decks, resolved, entries, made, a, b);
    }
    if k: nat, l: nat :| Clash(ts, existing, resolved, entries, k, l) {
      ClashMakesTwo(ts, existing, decks, resolved, entries, made, k, l);
    }
  }

  /** An entry the run has not come to is held now exactly if it was at the start. */
  lemma NotYetHeld(before: Corpus, ts: Corpus, entries: seq<Entry>, n: nat, decisions: Decisions, bulk: bool,
                   resolved: map<string, Uid>)
    requires WellFormed(entries) && n < |entries| && SoFar(before, ts, entries, n, decisions, bulk, resolved)
    ensures Held(ts, entries[n].id) <==> Held(before, entries[n].id)
    ensures entries[n].id !in resolved
    ensures forall k :: 0 <= k < n ==> entries[k].id != entries[n].id
  {
    var e := entries[n].id;
    if Held(before, e) {
      var u :| HoldsKey(before, u, e);
      GrowsKeepsKeys(before, ts, u, e);
    }
  }

  /** Every noted key is of one of the first n entries. */
  ghost predicate NotedSoFar(resolved: map<string, Uid>, entries: seq<Entry>, n: nat)
    requires n <= |entries|
  {
    forall e :: e in resolved ==> exists k :: 0 <= k < n && entries[k].id == e
  }

  lemma NotedOneMore(resolved: map<string, Uid>, noted: map<string, Uid>, entries: seq<Entry>, n: nat)
    requires n < |entries| && NotedSoFar(resolved, entries, n) && noted.Keys <= resolved.Keys + {entries[n].id}
    ensures NotedSoFar(noted, entries, n + 1)
  {
    forall e | e in noted
      ensures exists k :: 0 <= k < n + 1 && entries[k].id == e
    {
      if e != entries[n].id {
        assert e in resolved;
      }
    }
  }

  /** An entry that needed no write: it is noted, or left, and the rest stands. */
  lemma NotedStep(before: Corpus, ts: Corpus, entries: seq<Entry>, n: nat, decisions: Decisions, bulk: bool,
                  resolved: map<string, Uid>, noted: map<string, Uid>)
    requires WellFormed(entries) && n < |entries| && SoFar(before, ts, entries, n, decisions, bulk, resolved)
    requires noted.Keys <= resolved.Keys + {entries[n].id}
    requires forall e :: e in resolved ==> e in noted && (e != entries[n].id ==> noted[e] == resolved[e])
    requires Processed(ts, decisions, bulk, noted, entries[n].id)
    ensures SoFar(before, ts, entries, n + 1, decisions, bulk, noted)
  {
    NotYetHeld(before, ts, entries, n, decisions, bulk, resolved);
    forall k | 0 <= k < n
      ensures Processed(ts, decisions, bulk, noted, entries[k].id)
    {
      assert Processed(ts, decisions, bulk, resolved, entries[k].id);
    }
    NotedOneMore(resolved, noted, entries, n);
  }

  /** The keys placed since the start are of the first n entries. */
  ghost predicate PlacedSoFar(before: Corpus, ts: Corpus, entries: seq<Entry>, n: nat)
    requires n <= |entries|
  {
    forall e :: Held(ts, e) && !Held(before, e) ==> exists k :: 0 <= k < n && entries[k].id == e
  }

  lemma PlacedOneMore(before: Corpus, ts: Corpus, us: Corpus, entries: seq<Entry>, n: nat)
    requires n < |entries| && PlacedSoFar(before, ts, entries, n)
    requires forall x :: Held(us, x) <==> Held(ts, x) || x == entries[n].id
    ensures PlacedSoFar(before, us, entries, n + 1)
  {
    forall e | Held(us, e) && !Held(before, e)
      ensures exists k :: 0 <= k < n + 1 && entries[k].id == e
    {
      if e != entries[n].id {
        assert Held(ts, e);
      }
    }
  }

  /** Every entry handled is still handled after the write for the next one. */
  lemma ProcessedOneMore(ts: Corpus, us: Corpus, entries: seq<Entry>, n: nat, decisions: Decisions,
                         resolved: map<string, Uid>, u: Uid)
    requires n < |entries| && forall k :: 0 <= k < n ==> Processed(ts, decisions, false, resolved, entries[k].id)
    requires forall k :: 0 <= k < n ==> entries[k].id != entries[n].id
    requires Bijective(ts) && Bijective(us) && Grows(ts, us) && HoldsKey(us, u, entries[n].id)
    requires forall x :: Held(us, x) <==> Held(ts, x) || x == entries[n].id
    requires NoTargetMadeUp(ts, us, decisions)
    ensures forall k :: 0 <= k < n + 1 ==>
              Processed(us, decisions, false, resolved[entries[n].id := u], entries[k].id)
  {
    forall k | 0 <= k < n
      ensures Processed(us, decisions, false, resolved[entries[n].id := u], entries[k].id)
    {
      StillProcessed(ts, us, decisions, false, resolved, entries[k].id, entries[n].id, u);
    }
    assert Processed(us, decisions, false, resolved[entries[n].id := u], entries[n].id);
  }

  /** An entry settled or created: one more key is held, by the tournament noted. */
  lemma WrittenStep(before: Corpus, ts: Corpus, us: Corpus, entries: seq<Entry>, n: nat, decisions: Decisions,
                    resolved: map<string, Uid>, u: Uid)
    requires WellFormed(entries) && n < |entries| && SoFar(before, ts, entries, n, decisions, false, resolved)
    requires u in us && us == ts[u := us[u]] && Placed(before, u, us[u], entries[n], decisions)
    requires Bijective(us) && Grows(ts, us) && HoldsKey(us, u, entries[n].id)
    requires forall x :: Held(us, x) <==> Held(ts, x) || x == entries[n].id
    requires NoTargetMadeUp(ts, us, decisions)
    ensures SoFar(before, us, entries, n + 1, decisions, false, resolved[entries[n].id := u])
  {
    NotYetHeld(before, ts, entries, n, decisions, false, resolved);
    ExplainedOneMore(before, ts, entries, n, decisions, u, us[u]);
    GrowsOn(before, ts, us);
    ProcessedOneMore(ts, us, entries, n, decisions, resolved, u);
    PlacedOneMore(before, ts, us, entries, n);
    NotedOneMore(resolved, resolved[entries[n].id := u], entries, n);
  }

  lemma IndexIsUnique(known: map<string, Uid>, index: map<string, Uid>, ts: Corpus)
    requires Bijective(ts) && IsIndex(known, ts) && IsIndex(index, ts)
    ensures known == index
  {
    forall e | e in known
      ensures e in index && known[e] == index[e]
    {
      assert HoldsKey(ts, known[e], e);
      assert HoldsKey(ts, index[e], e);
    }
  }

  /** Only one tournament answers to an entry. */
  lemma ResolutionIsUnique(ts: Corpus, decisions: Decisions, e: string, u: Uid, v: Uid)
    requires Bijective(ts) && ResolvesTo(ts, decisions, e, u) && ResolvesTo(ts, decisions, e, v)
    ensures u == v
  {
    if HoldsKey(ts, u, e) || HoldsKey(ts, v, e) {
      assert Held(ts, e);
    }
  }

  /** Nothing is left to write: no key to place, and no deck to add. */
  ghost predicate KeysQuiescent(ts: Corpus, entries: seq<Entry>, decisions: Decisions, maxCreates: Option<nat>) {
    forall known, i :: IsIndex(known, ts) && 0 <= i < |entries| ==>
      Done(ts, decisions, OverCap(Pending(entries, decisions, known), maxCreates), entries[i].id)
  }

  ghost predicate DecksQuiescent(ts: Corpus, decks: map<Uid, Deck>, entries: seq<Entry>, decisions: Decisions) {
    forall i, u :: 0 <= i < |entries| && ResolvesTo(ts, decisions, entries[i].id, u) ==>
      DeckDone(ts, decks, map[entries[i].id := u], entries[i])
  }

  /** A finished loop has noted the tournament of every entry that has one. */
  ghost predicate AllProcessed(ts: Corpus, decisions: Decisions, bulk: bool, resolved: map<string, Uid>,
                               entries: seq<Entry>)
  {
    forall k :: 0 <= k < |entries| ==> Processed(ts, decisions, bulk, resolved, entries[k].id)
  }

  lemma DecksQuietIff(ts: Corpus, decks: map<Uid, Deck>, entries: seq<Entry>, decisions: Decisions, bulk: bool,
                      resolved: map<string, Uid>)
    requires Bijective(ts) && AllProcessed(ts, decisions, bulk, resolved, entries)
    ensures DecksQuiescent(ts, decks, entries, decisions) <==> AllDecksDone(ts, decks, resolved, entries, |entries|)
  {
    if DecksQuiescent(ts, decks, entries, decisions) {
      forall k | 0 <= k < |entries|
        ensures DeckDone(ts, decks, resolved, entries[k])
      {
        var e := entries[k].id;
        if e in resolved {
          assert ResolvesTo(ts, decisions, e, resolved[e]);
          assert DeckDone(ts, decks, map[e := resolved[e]], entries[k]);
        }
      }
    }
    if AllDecksDone(ts, decks, resolved, entries, |entries|) {
      forall i, u | 0 <= i < |entries| && ResolvesTo(ts, decisions, entries[i].id, u)
        ensures DeckDone(ts, decks, map[entries[i].id := u], entries[i])
      {
        var e := entries[i].id;
        assert e in resolved;
        ResolutionIsUnique(ts, decisions, e, u, resolved[e]);
        assert DeckDone(ts, decks, resolved, entries[i]);
      }
    }
  }

  // ---- Entries that meet, told before the run ---------------------------------------

  /** The entry lists cards for the winner of a live event, who owns no deck of it. */
  predicate CardsWanted(ts: Corpus, existing: map<Uid, Deck>, entry: Entry, u: Uid) {
    && u != "" && IsLive(ts, u) && ts[u].winner != "" && entry.cards != map[]
    && ts[u].winner !in OwnersOf(existing, u)
  }

  /** Two entries belong to one event and both list cards it wants. */
  ghost predicate Meet(ts: Corpus, existing: map<Uid, Deck>, entries: seq<Entry>, decisions: Decisions, k: nat, l: nat,
                       u: Uid)
  {
    && k < |entries| && l < |entries| && k != l
    && ResolvesTo(ts, decisions, entries[k].id, u) && ResolvesTo(ts, decisions, entries[l].id, u)
    && CardsWanted(ts, existing, entries[k], u) && CardsWanted(ts, existing, entries[l], u)
  }

  ghost predicate SomeMeet(ts: Corpus, existing: map<Uid, Deck>, entries: seq<Entry>, decisions: Decisions) {
    exists k, l, u :: Meet(ts, existing, entries, decisions, k, l, u)
  }

  /** Two entries meet in one event when one of them settled it and a decision attaches the
      other to it all the same: the key is refused, the decks are not. */
  lemma SettledEventMeets(ts: Corpus, decisions: Decisions, entries: seq<Entry>, u: Uid)
    requires |entries| == 2 && u != ""
    requires HoldsKey(ts, u, entries[0].id) && ts[u].winner != ""
    requires !Held(ts, entries[1].id) && entries[1].id in decisions && decisions[entries[1].id] == Attach(u)
    requires entries[0].cards != map[] && entries[1].cards != map[]
    ensures Unsettlable(ts, u) && SomeMeet(ts, map[], entries, decisions)
  {
    assert Meet(ts, map[], entries, decisions, 0, 1, u);
  }

  /** After the loop, entries clash exactly where they meet in the corpus it leaves. */
  lemma ClashIffMeet(ts: Corpus, existing: map<Uid, Deck>, entries: seq<Entry>, decisions: Decisions, bulk: bool,
                     resolved: map<string, Uid>)
    requires Bijective(ts) && AllProcessed(ts, decisions, bulk, resolved, entries)
    ensures SomeClash(ts, existing, resolved, entries) <==> SomeMeet(ts, existing, entries, decisions)
  {
    if k: nat, l: nat :| Clash(ts, existing, resolved, entries, k, l) {
      assert Processed(ts, decisions, bulk, resolved, entries[k].id);
      assert Processed(ts, decisions, bulk, resolved, entries[l].id);
      assert Meet(ts, existing, entries, decisions, k, l, resolved[entries[k].id]);
    }
    if k: nat, l: nat, u :| Meet(ts, existing, entries, decisions, k, l, u) {
      ResolvedIsNoted(ts, entries, decisions, bulk, resolved, k, u);
      ResolvedIsNoted(ts, entries, decisions, bulk, resolved, l, u);
      assert Clash(ts, existing, resolved, entries, k, l);
    }
  }

  lemma ResolvedIsNoted(ts: Corpus, entries: seq<Entry>, decisions: Decisions, bulk: bool, resolved: map<string, Uid>,
                        k: nat, u: Uid)
    requires Bijective(ts) && AllProcessed(ts, decisions, bulk, resolved, entries) && k < |entries|
    requires ResolvesTo(ts, decisions, entries[k].id, u)
    ensures entries[k].id in resolved && resolved[entries[k].id] == u
  {
    var e := entries[k].id;
    assert Processed(ts, decisions, bulk, resolved, e);
    ResolutionIsUnique(ts, decisions, e, u, resolved[e]);
  }

  /** A key gained since the start was placed by its own entry's decision. */
  lemma GainedByDecision(before: Corpus, ts: Corpus, entries: seq<Entry>, decisions: Decisions, u: Uid, e: string)
    requires Explained(before, ts, entries, |entries|, decisions)
    requires HoldsKey(ts, u, e) && !HoldsKey(before, u, e)
    ensures e in decisions
    ensures if u in before then decisions[e] == Attach(u) && Key(before[u]).None? else decisions[e].Create?
  {
    var k :| 0 <= k < |entries| && Placed(before, u, ts[u], entries[k], decisions);
    assert entries[k].id == e;
  }

  /** The loop moves no entry from a tournament held at the start to another, or off it. */
  lemma ResolutionStays(before: Corpus, ts: Corpus, entries: seq<Entry>, decisions: Decisions, e: string, u: Uid)
    requires Bijective(before) && Bijective(ts) && Grows(before, ts)
    requires Explained(before, ts, entries, |entries|, decisions) && u in before
    ensures ResolvesTo(before, decisions, e, u) <==> ResolvesTo(ts, decisions, e, u)
  {
    if HoldsKey(before, u, e) {
      GrowsKeepsKeys(before, ts, u, e);
    } else if HoldsKey(ts, u, e) {
      GainedByDecision(before, ts, entries, decisions, u, e);
      if v :| HoldsKey(before, v, e) {
        GrowsKeepsKeys(before, ts, v, e);
      }
    } else if v :| HoldsKey(before, v, e) {
      GrowsKeepsKeys(before, ts, v, e);
      assert Held(before, e) && Held(ts, e);
    } else if v :| HoldsKey(ts, v, e) {
      GainedByDecision(before, ts, entries, decisions, v, e);
      assert Held(ts, e);
    }
  }

  /** Only one entry belongs to an event no decision names. */
  lemma UnnamedHasOneEntry(ts: Corpus, decisions: Decisions, e: string, f: string, u: Uid)
    requires u !in TargetsOf(decisions) && ResolvesTo(ts, decisions, e, u) && ResolvesTo(ts, decisions, f, u)
    ensures e == f
  {
    assert HoldsKey(ts, u, e) && HoldsKey(ts, u, f);
  }

  /** So entries meet in the corpus the loop leaves exactly if they met in the one it found. */
  lemma MeetingIsForeseen(before: Corpus, ts: Corpus, existing: map<Uid, Deck>, entries: seq<Entry>,
                          decisions: Decisions)
    requires WellFormed(entries) && Bijective(before) && Bijective(ts) && Grows(before, ts)
    requires Explained(before, ts, entries, |entries|, decisions) && NoTargetMadeUp(before, ts, decisions)
    ensures SomeMeet(before, existing, entries, decisions) <==> SomeMeet(ts, existing, entries, decisions)
  {
    if k: nat, l: nat, u :| Meet(before, existing, entries, decisions, k, l, u) {
      ResolutionStays(before, ts, entries, decisions, entries[k].id, u);
      ResolutionStays(before, ts, entries, decisions, entries[l].id, u);
      assert Meet(ts, existing, entries, decisions, k, l, u);
    }
    if k: nat, l: nat, u :| Meet(ts, existing, entries, decisions, k, l, u) {
      if u !in before {
        UnnamedHasOneEntry(ts, decisions, entries[k].id, entries[l].id, u);
        assert false;
      }
      ResolutionStays(before, ts, entries, decisions, entries[k].id, u);
      ResolutionStays(before, ts, entries, decisions, entries[l].id, u);
      assert Meet(before, existing, entries, decisions, k, l, u);
    }
  }

  lemma KeysQuiet(before: Corpus, ts: Corpus, entries: seq<Entry>, decisions: Decisions, maxCreates: Option<nat>,
                  known: map<string, Uid>, resolved: map<string, Uid>)
    requires IsIndex(known, before) && Bijective(before)
    requires var bulk := OverCap(Pending(entries, decisions, known), maxCreates);
      AllProcessed(ts, decisions, bulk, resolved, entries) && (bulk ==> ts == before)
    ensures KeysQuiescent(ts, entries, decisions, maxCreates)
  {
    var bulk := OverCap(Pending(entries, decisions, known), maxCreates);
    forall index, i | IsIndex(index, ts) && 0 <= i < |entries|
      ensures Done(ts, decisions, OverCap(Pending(entries, decisions, index), maxCreates), entries[i].id)
    {
      assert Processed(ts, decisions, bulk, resolved, entries[i].id);
      if bulk {
        IndexIsUnique(known, index, ts);
      }
    }
  }

  // ---- What a complete run has done for each decision -------------------------------

  /** The event records the win the archive attests: a live tournament of its own, with the winner
      decided on, on the entry's medium and in its country, in the city the gazetteer has for it. */
  predicate RecordsWin(t: Tournament, entry: Entry, winner: Uid) {
    && !t.deleted && t.twda == Some(entry.id) && t.twdaEntry.None? && t.winner == winner && t.rest == entry.rest
    && t.venue.online == entry.online && t.venue.country == entry.country
    && (if entry.city.Some? then
          t.venue.city == Some(entry.city.value.name) && t.venue.geonameId == Some(entry.city.value.geonameId)
        else t.venue.city.None? && t.venue.geonameId.None?)
  }

  /** An entry decided as a new event: it is held by one made in this run, which records its win,
      and the winner has a deck there if the entry lists cards. */
  ghost predicate Reconstructed(before: Corpus, ts: Corpus, decks: map<Uid, Deck>, entry: Entry, winner: Uid, u: Uid) {
    && u in ts && u !in before && RecordsWin(ts[u], entry, winner)
    && (winner != "" && entry.cards != map[] ==>
          exists d :: d in decks && !decks[d].deleted && decks[d].tournament == u && decks[d].owner == winner)
  }

  /** The entry is the only one attached to its target, which was live and without a key. */
  predicate AttachesAlone(before: Corpus, entries: seq<Entry>, decisions: Decisions, i: nat, u: Uid)
    requires i < |entries|
  {
    && entries[i].id in decisions && decisions[entries[i].id] == Attach(u)
    && u in before && !before[u].deleted && before[u].twda.None? && before[u].twdaEntry.None?
    && forall k :: 0 <= k < |entries| && k != i ==>
         entries[k].id !in decisions || decisions[entries[k].id] != Attach(u)
  }

  /** The event carries the entry's key now and is otherwise what it was, but for the city where the
      archive knows one in its country and it is neither online nor located. */
  predicate Attached(t: Tournament, t': Tournament, entry: Entry) {
    && t'.twdaEntry == Some(entry.id)
    && t'.twda == t.twda && t'.winner == t.winner && t'.deleted == t.deleted && t'.rest == t.rest
    && t'.venue.online == t.venue.online && t'.venue.country == t.venue.country
    && (if entry.city.Some? && !t.venue.online && (t.venue.geonameId.None? || t.venue.geonameId.value == 0)
           && InCountryOf(t.venue, entry.city.value)
        then t'.venue.city == Some(entry.city.value.name) && t'.venue.geonameId == Some(entry.city.value.geonameId)
        else t'.venue == t.venue)
  }

  /** A key that nobody held at the start and that is held now was placed by its entry. */
  lemma PlacedByItsEntry(before: Corpus, ts: Corpus, entries: seq<Entry>, decisions: Decisions, i: nat, u: Uid)
    requires WellFormed(entries) && i < |entries|
    requires Explained(before, ts, entries, |entries|, decisions)
    requires HoldsKey(ts, u, entries[i].id) && !Held(before, entries[i].id)
    ensures Placed(before, u, ts[u], entries[i], decisions)
  {
    assert !HoldsKey(before, u, entries[i].id);
    var k :| 0 <= k < |entries| && Placed(before, u, ts[u], entries[k], decisions);
    assert entries[k].id == entries[i].id;
  }

  lemma DecidedNewIsMade(before: Corpus, ts: Corpus, decks: map<Uid, Deck>, entries: seq<Entry>, decisions: Decisions,
                         i: nat, winner: Uid)
    requires WellFormed(entries) && i < |entries|
    requires Explained(before, ts, entries, |entries|, decisions) && DecksQuiescent(ts, decks, entries, decisions)
    requires entries[i].id in decisions && decisions[entries[i].id] == Create(winner)
    requires !Held(before, entries[i].id) && Held(ts, entries[i].id)
    ensures exists u :: Reconstructed(before, ts, decks, entries[i], winner, u)
  {
    var e := entries[i].id;
    var u :| HoldsKey(ts, u, e);
    PlacedByItsEntry(before, ts, entries, decisions, i, u);
    assert ResolvesTo(ts, decisions, e, u);
    assert DeckDone(ts, decks, map[e := u], entries[i]);
    assert Reconstructed(before, ts, decks, entries[i], winner, u);
  }

  lemma DecidedTargetIsAttached(before: Corpus, ts: Corpus, entries: seq<Entry>, decisions: Decisions, i: nat, u: Uid)
    requires WellFormed(entries) && i < |entries| && Grows(before, ts)
    requires Explained(before, ts, entries, |entries|, decisions)
    requires AttachesAlone(before, entries, decisions, i, u) && !Held(before, entries[i].id)
    requires Held(ts, entries[i].id) || Unsettlable(ts, u)
    ensures u in ts && Attached(before[u], ts[u], entries[i])
  {
    var e := entries[i].id;
    if v :| HoldsKey(ts, v, e) {
      PlacedByItsEntry(before, ts, entries, decisions, i, v);
    } else {
      var k :| 0 <= k < |entries| && Placed(before, u, ts[u], entries[k], decisions);
      assert k == i && HoldsKey(ts, u, e);
      assert false;
    }
  }

  /** Every entry decided as a new event has one that records its win, and every entry attached alone
      to an event has stamped it, unless a tournament held it at the start. */
  ghost predicate CarriedOut(before: Corpus, ts: Corpus, decks: map<Uid, Deck>, entries: seq<Entry>,
                             decisions: Decisions)
  {
    && (forall i, w :: 0 <= i < |entries| && entries[i].id in decisions && decisions[entries[i].id] == Create(w)
                       && !Held(before, entries[i].id) ==>
          exists u :: Reconstructed(before, ts, decks, entries[i], w, u))
    && (forall i, u :: 0 <= i < |entries| && AttachesAlone(before, entries, decisions, i, u)
                       && !Held(before, entries[i].id) ==>
          u in ts && Attached(before[u], ts[u], entries[i]))
  }

  lemma EveryDecisionIsCarriedOut(before: Corpus, ts: Corpus, decks: map<Uid, Deck>, entries: seq<Entry>,
                                  decisions: Decisions, resolved: map<string, Uid>)
    requires WellFormed(entries) && Grows(before, ts)
    requires Explained(before, ts, entries, |entries|, decisions) && DecksQuiescent(ts, decks, entries, decisions)
    requires AllProcessed(ts, decisions, false, resolved, entries)
    ensures CarriedOut(before, ts, decks, entries, decisions)
  {
    forall i, w | 0 <= i < |entries| && entries[i].id in decisions && decisions[entries[i].id] == Create(w)
                  && !Held(before, entries[i].id)
      ensures exists u :: Reconstructed(before, ts, decks, entries[i], w, u)
    {
      assert Processed(ts, decisions, false, resolved, entries[i].id);
      DecidedNewIsMade(before, ts, decks, entries, decisions, i, w);
    }
    forall i, u | 0 <= i < |entries| && AttachesAlone(before, entries, decisions, i, u)
                  && !Held(before, entries[i].id)
      ensures u in ts && Attached(before[u], ts[u], entries[i])
    {
      assert Processed(ts, decisions, false, resolved, entries[i].id);
      DecidedTargetIsAttached(before, ts, entries, decisions, i, u);
    }
  }

  /** An entry that lists cards belongs to this live event, whose winner it names a deck of. */
  ghost predicate ListsTheWin(ts: Corpus, decisions: Decisions, entry: Entry, u: Uid) {
    && ResolvesTo(ts, decisions, entry.id, u) && entry.cards != map[]
    && u != "" && u in ts && !ts[u].deleted && ts[u].winner != ""
  }

  /** The winner had no deck there, and this one is his, as some entry lists it. */
  ghost predicate OwedToTheWinner(ts: Corpus, existing: map<Uid, Deck>, entries: seq<Entry>, decisions: Decisions,
                                  deck: Deck)
  {
    exists i :: 0 <= i < |entries| && ListsTheWin(ts, decisions, entries[i], deck.tournament)
                && deck.owner == ts[deck.tournament].winner && !deck.deleted && deck.rest == entries[i].rest
                && !HasDeck(existing, deck.tournament, deck.owner)
  }

  /** Every deck added was owed. */
  ghost predicate OnlyOwed(ts: Corpus, existing: map<Uid, Deck>, decks: map<Uid, Deck>, entries: seq<Entry>,
                           decisions: Decisions)
  {
    forall d :: d in decks && d !in existing ==> OwedToTheWinner(ts, existing, entries, decisions, decks[d])
  }

  /** Wherever an entry lists the win, the winner has a deck. */
  ghost predicate WinnersServed(ts: Corpus, decks: map<Uid, Deck>, entries: seq<Entry>, decisions: Decisions) {
    forall i, u :: 0 <= i < |entries| && ListsTheWin(ts, decisions, entries[i], u) ==> HasDeck(decks, u, ts[u].winner)
  }

  lemma NewDecksAreOwed(ts: Corpus, existing: map<Uid, Deck>, decks: map<Uid, Deck>, entries: seq<Entry>,
                        decisions: Decisions, bulk: bool, resolved: map<string, Uid>)
    requires AllProcessed(ts, decisions, bulk, resolved, entries)
    requires NewDecksExplained(ts, existing, decks, resolved, entries, |entries|)
    ensures OnlyOwed(ts, existing, decks, entries, decisions)
  {
    forall d | d in decks && d !in existing
      ensures OwedToTheWinner(ts, existing, entries, decisions, decks[d])
    {
      var k :| 0 <= k < |entries| && IsWinnersDeck(ts, existing, resolved, entries[k], decks[d]);
      assert Processed(ts, decisions, bulk, resolved, entries[k].id);
      assert ListsTheWin(ts, decisions, entries[k], decks[d].tournament);
    }
  }

  lemma QuietMeansDecksAreThere(ts: Corpus, decks: map<Uid, Deck>, entries: seq<Entry>, decisions: Decisions)
    requires DecksQuiescent(ts, decks, entries, decisions)
    ensures WinnersServed(ts, decks, entries, decisions)
  {
    forall i, u | 0 <= i < |entries| && ListsTheWin(ts, decisions, entries[i], u)
      ensures HasDeck(decks, u, ts[u].winner)
    {
      assert DeckDone(ts, decks, map[entries[i].id := u], entries[i]);
    }
  }

  /** No entry asks for a write to a tournament. */
  ghost predicate AllDone(ts: Corpus, entries: seq<Entry>, decisions: Decisions, bulk: bool) {
    forall i :: 0 <= i < |entries| ==> Done(ts, decisions, bulk, entries[i].id)
  }

  lemma AtTheStart(ts: Corpus, entries: seq<Entry>, decisions: Decisions, bulk: bool)
    requires Bijective(ts)
    ensures SoFar(ts, ts, entries, 0, decisions, bulk, map[])
  {
  }

  lemma AtTheEnd(before: Corpus, ts: Corpus, entries: seq<Entry>, decisions: Decisions, bulk: bool,
                 resolved: map<string, Uid>)
    requires SoFar(before, ts, entries, |entries|, decisions, bulk, resolved)
    ensures AllProcessed(ts, decisions, bulk, resolved, entries)
    ensures Bijective(ts) && Grows(before, ts) && (bulk ==> ts == before)
    ensures Explained(before, ts, entries, |entries|, decisions) && NoTargetMadeUp(before, ts, decisions)
  {
  }

  datatype Stats = Stats(created: nat, settled: nat, decksCreated: nat, deferred: nat, stale: nat)

  class Archive {
    var tournaments: Corpus
    var decks: map<Uid, Deck>

    constructor (tournaments: Corpus, decks: map<Uid, Deck>)
      ensures this.tournaments == tournaments && this.decks == decks
    {
      this.tournaments := tournaments;
      this.decks := decks;
    }

    /** Stamps the entry's key on the tournament it attaches to, unless that is
        gone or already holds one. */
    method SettleAttachment(e: string, target: Uid, city: Option<City>, now: nat, budget: nat)
      returns (outcome: Outcome)
      requires Bijective(tournaments) && !Held(tournaments, e) && e != ""
      modifies this`tournaments
      ensures outcome == Kept || outcome == Settled || outcome == Crashed
      ensures outcome == Kept <==> Unsettlable(old(tournaments), target)
      ensures outcome == Crashed ==> budget == 0
      ensures outcome == Settled ==> budget > 0
      ensures outcome != Settled ==> tournaments == old(tournaments)
      ensures outcome == Settled ==>
        tournaments == old(tournaments)[target := Stamped(old(tournaments)[target], e, city, now)]
    {
      if target !in tournaments || tournaments[target].deleted {
        return Kept;
      }
      var t := tournaments[target];
      var held := if NonEmpty(t.twdaEntry) then t.twdaEntry else t.twda;
      assert IsLive(tournaments, target);
      if NonEmpty(held) {
        return Kept;
      }
      if budget == 0 {
        return Crashed;
      }
      t := t.(twdaEntry := Some(e));
      if city.Some? && !Located(t.venue) && !t.venue.online && InCountryOf(t.venue, city.value) {
        t := t.(venue := t.venue.(city := Some(city.value.name), geonameId := Some(city.value.geonameId)));
      }
      t := t.(modified := now);
      tournaments := tournaments[target := t];
      outcome := Settled;
    }

    /** Saves a tournament made up from the archive entry, under an unused uid. */
    method Reconstruct(entry: Entry, winner: Uid, targets: set<Uid>, now: nat, budget: nat)
      returns (outcome: Outcome, u: Uid)
      modifies this`tournaments
      ensures outcome == Created || outcome == Crashed
      ensures outcome == Crashed ==> budget == 0 && tournaments == old(tournaments)
      ensures outcome == Created ==>
        && budget > 0 && u !in old(tournaments) && u !in targets && u != ""
        && tournaments == old(tournaments)[u := MadeUp(entry, winner, now)]
    {
      SomeUnused(tournaments.Keys + targets);
      u :| u !in tournaments.Keys + targets && u != "";
      if budget == 0 {
        return Crashed, u;
      }
      tournaments := tournaments[u := MadeUp(entry, winner, now)];
      outcome := Created;
    }

    /** One turn of the reconciliation loop. A reconstruction carries the time the run began,
        an attachment the time it is settled. */
    method Reconcile(entries: seq<Entry>, n: nat, known: map<string, Uid>, decisions: Decisions, bulk: bool,
                     resolved: map<string, Uid>, began: nat, now: nat, budget: nat, ghost before: Corpus)
      returns (noted: map<string, Uid>, outcome: Outcome)
      requires WellFormed(entries) && n < |entries| && IsIndex(known, before)
      requires SoFar(before, tournaments, entries, n, decisions, bulk, resolved)
      modifies this`tournaments
      ensures outcome == Crashed ==> budget == 0 && tournaments == old(tournaments)
      ensures outcome == Kept ==> tournaments == old(tournaments)
      ensures outcome == Settled || outcome == Created ==> budget > 0
      ensures outcome != Crashed ==> SoFar(before, tournaments, entries, n + 1, decisions, bulk, noted)
      ensures Done(old(tournaments), decisions, bulk, entries[n].id) ==> outcome == Kept
    {
      var entry := entries[n];
      var e := entry.id;
      ghost var ts := tournaments;
      NotYetHeld(before, ts, entries, n, decisions, bulk, resolved);
      noted := resolved;
      if e in known {
        GrowsKeepsKeys(before, ts, known[e], e);
        noted := resolved[e := known[e]];
        NotedStep(before, ts, entries, n, decisions, bulk, resolved, noted);
        return noted, Kept;
      }
      if e !in decisions {
        NotedStep(before, ts, entries, n, decisions, bulk, resolved, noted);
        return noted, Kept;
      }
      if bulk {
        if decisions[e].Attach? {
          noted := resolved[e := decisions[e].target];
        }
        NotedStep(before, ts, entries, n, decisions, bulk, resolved, noted);
        return noted, Kept;
      }
      if decisions[e].Attach? {
        var target := decisions[e].target;
        noted := resolved[e := target];
        outcome := SettleAttachment(e, target, entry.city, now, budget);
        if outcome == Settled {
          UnkeyedIsUntouched(before, ts, entries, n, decisions, target);
          FillingMovesNothing(ts[target].venue, entry.city);
          StampKeeps(ts, target, e, tournaments[target]);
          WrittenStep(before, ts, tournaments, entries, n, decisions, resolved, target);
        } else if outcome == Kept {
          NotedStep(before, ts, entries, n, decisions, bulk, resolved, noted);
        }
        return noted, outcome;
      }
      var u;
      outcome, u := Reconstruct(entry, decisions[e].winner, TargetsOf(decisions), began, budget);
      if outcome == Created {
        noted := resolved[e := u];
        CreateKeeps(ts, u, e, tournaments[u]);
        WrittenStep(before, ts, tournaments, entries, n, decisions, resolved, u);
      }
    }

    /** One winner decklist for each resolved event that lacked one at the start. */
    method ImportDecks(entries: seq<Entry>, resolved: map<string, Uid>, budget: nat)
      returns (created: nat, stale: nat, complete: bool)
      modifies this`decks
      ensures DecksGrow(old(decks), decks)
      ensures complete ==> Imported(tournaments, old(decks), decks, resolved, entries, |entries|)
      ensures complete ==> (DoublesUp(old(decks), decks) <==> SomeClash(tournaments, old(decks), resolved, entries))
      ensures NewDecksExplained(tournaments, old(decks), decks, resolved, entries, |entries|)
      ensures if complete then created <= budget else created == budget
      ensures AllDecksDone(tournaments, old(decks), resolved, entries, |entries|) ==>
        complete && decks == old(decks) && created == 0
    {
      ghost var existing, made := decks, map[];
      decks, created, stale, complete, made := DecksFor(tournaments, decks, entries, resolved, budget);
      if complete {
        TwoDecksIffClash(tournaments, existing, decks, resolved, entries, made);
      }
    }

    ghost predicate Quiescent(entries: seq<Entry>, decisions: Decisions, maxCreates: Option<nat>)
      reads this
    {
      && KeysQuiescent(tournaments, entries, decisions, maxCreates)
      && DecksQuiescent(tournaments, decks, entries, decisions)
    }

    /** The reconciliation loop over all entries; stops where it crashes. `clock` is what the
        clock reads at each entry's turn. */
    method ReconcileAll(entries: seq<Entry>, known: map<string, Uid>, decisions: Decisions, bulk: bool, began: nat,
                        clock: nat -> nat, budget: nat)
      returns (resolved: map<string, Uid>, created: nat, settled: nat, complete: bool)
      requires WellFormed(entries) && Bijective(tournaments) && IsIndex(known, tournaments)
      modifies this`tournaments
      ensures Bijective(tournaments) && Grows(old(tournaments), tournaments)
      ensures bulk ==> tournaments == old(tournaments)
      ensures complete ==> AllProcessed(tournaments, decisions, bulk, resolved, entries)
      ensures AllDone(old(tournaments), entries, decisions, bulk) ==>
        complete && tournaments == old(tournaments) && created == 0 && settled == 0
      ensures if complete then created + settled <= budget else created + settled == budget
      ensures Explained(old(tournaments), tournaments, entries, |entries|, decisions)
      ensures NoTargetMadeUp(old(tournaments), tournaments, decisions)
    {
      ghost var before := tournaments;
      resolved, created, settled := map[], 0, 0;
      AtTheStart(before, entries, decisions, bulk);
      for n := 0 to |entries|
        invariant SoFar(before, tournaments, entries, n, decisions, bulk, resolved)
        invariant created + settled <= budget
        invariant AllDone(before, entries, decisions, bulk) ==> tournaments == before && created == 0 && settled == 0
      {
        var outcome;
        resolved, outcome :=
          Reconcile(entries, n, known, decisions, bulk, resolved, began, clock(n), budget - created - settled, before);
        match outcome
        case Kept =>
        case Settled => settled := settled + 1;
        case Created => created := created + 1;
        case Crashed => return resolved, created, settled, false;
      }
      AtTheEnd(before, tournaments, entries, decisions, bulk, resolved);
      complete := true;
    }

    /** One sync run with `budget` writes to spend before it crashes. */
    method Run(entries: seq<Entry>, decisions: Decisions, maxCreates: Option<nat>, began: nat, clock: nat -> nat,
               budget: nat)
      returns (stats: Stats, complete: bool)
      requires WellFormed(entries) && Bijective(tournaments)
      modifies this
      ensures Bijective(tournaments) && Grows(old(tournaments), tournaments) && DecksGrow(old(decks), decks)
      ensures stats.deferred > 0 ==> tournaments == old(tournaments)
      ensures var unplaced := |old(Unplaced(tournaments, entries, |entries|, decisions))|;
        stats.deferred == if maxCreates.Some? && unplaced > maxCreates.value then unplaced else 0
      ensures Explained(old(tournaments), tournaments, entries, |entries|, decisions)
      ensures !complete ==> stats.created + stats.settled + stats.decksCreated == budget
      ensures complete ==> Quiescent(entries, decisions, maxCreates)
      ensures complete ==> (DoublesUp(old(decks), decks) <==> old(SomeMeet(tournaments, decks, entries, decisions)))
      ensures complete && stats.deferred == 0 ==> CarriedOut(old(tournaments), tournaments, decks, entries, decisions)
      ensures OnlyOwed(tournaments, old(decks), decks, entries, decisions)
      ensures complete ==> WinnersServed(tournaments, decks, entries, decisions)
      ensures old(Quiescent(entries, decisions, maxCreates)) ==>
        && complete && tournaments == old(tournaments) && decks == old(decks)
        && stats.created == 0 && stats.settled == 0 && stats.decksCreated == 0
    {
      ghost var before, existing := tournaments, decks;
      var known := TournamentsByKey(tournaments);
      var pending := Pending(entries, decisions, known);
      var bulk := OverCap(pending, maxCreates);
      var deferred := if bulk then pending else 0;
      PendingCounts(before, known, entries, |entries|, decisions);
      assert entries[..|entries|] == entries;
      var resolved, created, settled;
      resolved, created, settled, complete := ReconcileAll(entries, known, decisions, bulk, began, clock, budget);
      if !complete {
        return Stats(created, settled, 0, deferred, 0), false;
      }
      KeysQuiet(before, tournaments, entries, decisions, maxCreates, known, resolved);
      DecksQuietIff(tournaments, decks, entries, decisions, bulk, resolved);
      MeetingIsForeseen(before, tournaments, decks, entries, decisions);
      ClashIffMeet(tournaments, decks, entries, decisions, bulk, resolved);
      var decksCreated, stale;
      decksCreated, stale, complete := ImportDecks(entries, resolved, budget - created - settled);
      DecksQuietIff(tournaments, decks, entries, decisions, bulk, resolved);
      NewDecksAreOwed(tournaments, existing, decks, entries, decisions, bulk, resolved);
      if complete {
        QuietMeansDecksAreThere(tournaments, decks, entries, decisions);
      }
      if complete && !bulk {
        EveryDecisionIsCarriedOut(before, tournaments, decks, entries, decisions, resolved);
      }
      stats := Stats(created, settled, decksCreated, deferred, stale);
    }
  }
}

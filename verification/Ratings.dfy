/** ratings.py: a player's category rating, recomputed from the tournaments of the window. */
module Ratings {
  import opened Base
  import opened KeysetPaging
  import opened Lists

  const TOP_N := 8
  const USER_BATCH := 500

  /** One rated result; `rest` stands for the fields that play no part in the order. */
  datatype Entry = Entry(tournament: Uid, points: int, rest: Json)

  datatype Rating = Rating(total: int, tournaments: seq<Entry>)

  // ---- The canonical order ----------------------------------------------------------

  predicate Before(a: Entry, b: Entry) {
    a.points > b.points || (a.points == b.points && TextLess(a.tournament, b.tournament))
  }

  /** Sorted by the key, equal keys allowed. */
  predicate InOrder(es: seq<Entry>) {
    forall i, j :: 0 <= i < j < |es| ==> !Before(es[j], es[i])
  }

  function Insert(e: Entry, es: seq<Entry>): seq<Entry> {
    if es == [] || Before(e, es[0]) then [e] + es else [es[0]] + Insert(e, es[1..])
  }

  /** The stable sort by descending points, then tournament uid. */
  function Sort(es: seq<Entry>): seq<Entry> {
    if es == [] then [] else Insert(es[|es| - 1], Sort(es[..|es| - 1]))
  }

  lemma BeforeOrder(a: Entry, b: Entry)
    ensures !(Before(a, b) && Before(b, a))
    ensures Before(a, b) || Before(b, a) || (a.points == b.points && a.tournament == b.tournament)
  {
    TextOrder(a.tournament, b.tournament);
  }

  lemma BeforeTransitive(a: Entry, b: Entry, c: Entry)
    requires !Before(b, a) && !Before(c, b)
    ensures !Before(c, a)
  {
    if a.points == b.points == c.points && Before(c, a) {
      TextOrder(a.tournament, b.tournament);
      TextOrder(b.tournament, c.tournament);
      TextOrder(a.tournament, c.tournament);
      if TextLess(a.tournament, b.tournament) && TextLess(b.tournament, c.tournament) {
        TextTransitive(a.tournament, b.tournament, c.tournament);
      }
    }
  }

  lemma Prepended(e: Entry, es: seq<Entry>)
    requires InOrder(es) && (forall i :: 0 <= i < |es| ==> !Before(es[i], e))
    ensures InOrder([e] + es)
  {
  }

  lemma FirstIsBefore(e: Entry, es: seq<Entry>)
    requires InOrder(es) && es != [] && Before(e, es[0])
    ensures forall i :: 0 <= i < |es| ==> !Before(es[i], e)
  {
    BeforeOrder(e, es[0]);
    forall i | 0 < i < |es|
      ensures !Before(es[i], e)
    {
      BeforeTransitive(e, es[0], es[i]);
    }
  }

  lemma {:induction false} Inserted(e: Entry, es: seq<Entry>)
    requires InOrder(es)
    ensures InOrder(Insert(e, es)) && multiset(Insert(e, es)) == multiset(es) + multiset{e}
    decreases |es|
  {
    if es == [] {
      assert [e] + es == [e];
    } else if Before(e, es[0]) {
      FirstIsBefore(e, es);
      Prepended(e, es);
    } else {
      var tail := Insert(e, es[1..]);
      Inserted(e, es[1..]);
      assert es == [es[0]] + es[1..];
      forall j | 0 <= j < |tail|
        ensures !Before(tail[j], es[0])
      {
        assert tail[j] in multiset(tail);
        if tail[j] != e {
          assert tail[j] in es[1..];
          var k :| 1 <= k < |es| && es[k] == tail[j];
        }
      }
      Prepended(es[0], tail);
    }
  }

  lemma {:induction false} Sorted(es: seq<Entry>)
    ensures InOrder(Sort(es)) && multiset(Sort(es)) == multiset(es) && |Sort(es)| == |es|
    decreases |es|
  {
    if es != [] {
      Sorted(es[..|es| - 1]);
      Inserted(es[|es| - 1], Sort(es[..|es| - 1]));
      assert es == es[..|es| - 1] + [es[|es| - 1]];
      assert |multiset(Sort(es))| == |multiset(es)|;
    }
  }

  /** No tournament is listed twice. */
  predicate OncePerTournament(es: seq<Entry>) {
    forall i, j :: 0 <= i < j < |es| ==> es[i].tournament != es[j].tournament
  }

  lemma FirstAgrees(a: seq<Entry>, b: seq<Entry>)
    requires InOrder(a) && InOrder(b) && multiset(a) == multiset(b)
    requires OncePerTournament(a) && a != [] && b != []
    ensures a[0] == b[0]
  {
    assert a[0] in multiset(b) && b[0] in multiset(a);
    var i :| 0 <= i < |b| && b[i] == a[0];
    var j :| 0 <= j < |a| && a[j] == b[0];
    BeforeOrder(a[0], b[0]);
    assert !Before(b[i], b[0]) || i == 0;
    assert !Before(a[j], a[0]) || j == 0;
    assert a[0].tournament == a[j].tournament;
  }

  /** With one entry a tournament the key decides: there is one sorted order. */
  lemma {:induction false} OneOrder(a: seq<Entry>, b: seq<Entry>)
    requires InOrder(a) && InOrder(b) && multiset(a) == multiset(b)
    requires OncePerTournament(a)
    ensures a == b
    decreases |a|
  {
    SameBagSameLength(a, b);
    if a != [] {
      FirstAgrees(a, b);
      TailInOrder(a);
      TailInOrder(b);
      OneOrder(a[1..], b[1..]);
    }
  }

  lemma TailInOrder(a: seq<Entry>)
    requires a != [] && InOrder(a)
    ensures InOrder(a[1..]) && (OncePerTournament(a) ==> OncePerTournament(a[1..]))
    ensures multiset(a[1..]) == multiset(a) - multiset{a[0]} && a == [a[0]] + a[1..]
  {
    assert a == [a[0]] + a[1..];
  }

  // ---- The total of the best eight --------------------------------------------------

  function Total(es: seq<Entry>): int {
    if es == [] then 0 else Total(Init(es)) + Last(es).points
  }

  function Best(es: seq<Entry>): seq<Entry> {
    if |es| <= TOP_N then es else es[..TOP_N]
  }

  function RatingOf(es: seq<Entry>): Rating {
    Rating(Total(Best(Sort(es))), Sort(es))
  }

  lemma {:induction false} TotalWithout(b: seq<Entry>, i: nat)
    requires i < |b|
    ensures Total(b) == Total(Without(b, i)) + b[i].points
    decreases |b|
  {
    if i == |b| - 1 {
      WithoutLast(b);
    } else {
      WithoutEarlier(b, i);
      TotalWithout(Init(b), i);
    }
  }

  predicate Descending(s: seq<Entry>) {
    forall i, j :: 0 <= i < j < |s| ==> s[i].points >= s[j].points
  }

  /** If a choice takes the last entry, the rest of it comes from the others. */
  lemma ChosenLast(s: seq<Entry>, choice: seq<Entry>) returns (rest: seq<Entry>)
    requires s != [] && multiset(choice) <= multiset(s)
    requires !(multiset(choice) <= multiset(Init(s)))
    ensures |rest| == |choice| - 1 && multiset(rest) <= multiset(Init(s))
    ensures Total(choice) == Total(rest) + Last(s).points
  {
    BagOfInit(s);
    LastIsChosen(Init(s), Last(s), choice);
    var at :| 0 <= at < |choice| && choice[at] == Last(s);
    rest := Without(choice, at);
    BagWithout(choice, at);
    TotalWithout(choice, at);
  }

  lemma TotalOfFirst(s: seq<Entry>, k: nat)
    requires 1 <= k <= |s|
    ensures Total(s[..k]) == Total(s[..k - 1]) + s[k - 1].points
  {
    assert s[..k][..k - 1] == s[..k - 1];
  }

  /** No choice of as many entries adds up to more than the first ones of a
      descending list. */
  lemma {:induction false} FirstAreBest(s: seq<Entry>, choice: seq<Entry>)
    requires Descending(s) && multiset(choice) <= multiset(s)
    ensures |choice| <= |s| && Total(choice) <= Total(s[..|choice|])
    decreases |s|
  {
    SmallerChoice(s, choice);
    if choice != [] {
      var init, k := s[..|s| - 1], |choice|;
      if multiset(choice) <= multiset(init) {
        FirstAreBest(init, choice);
        assert init[..k] == s[..k];
      } else {
        var rest := ChosenLast(s, choice);
        FirstAreBest(init, rest);
        assert init[..k - 1] == s[..k - 1];
        TotalOfFirst(s, k);
      }
    }
  }

  lemma SmallerChoice(s: seq<Entry>, choice: seq<Entry>)
    requires multiset(choice) <= multiset(s)
    ensures |choice| <= |s|
  {
    assert |multiset(s)| == |s| && |multiset(choice)| == |choice|;
    assert multiset(s) == multiset(choice) + (multiset(s) - multiset(choice));
    assert |multiset(s)| == |multiset(choice)| + |multiset(s) - multiset(choice)|;
  }

  lemma LastIsChosen(init: seq<Entry>, last: Entry, choice: seq<Entry>)
    requires multiset(choice) <= multiset(init) + multiset{last}
    requires !(multiset(choice) <= multiset(init))
    ensures last in choice && multiset(choice) - multiset{last} <= multiset(init)
  {
    assert last in multiset(choice);
  }

  /** The rating is canonical: it depends on which entries there are, not on the
      order they came in; and its total is the most that any choice of eight
      entries, or of all when there are fewer, adds up to. */
  lemma RatingIsCanonical(es: seq<Entry>, other: seq<Entry>)
    requires multiset(es) == multiset(other) && OncePerTournament(es)
    ensures RatingOf(es) == RatingOf(other)
  {
    Sorted(es);
    Sorted(other);
    OnceInAnyOrder(es, Sort(es));
    OneOrder(Sort(es), Sort(other));
  }

  lemma {:induction false} CountedOnce(es: seq<Entry>, e: Entry)
    requires OncePerTournament(es)
    ensures multiset(es)[e] <= 1
    decreases |es|
  {
    if es != [] {
      var init, last := es[..|es| - 1], es[|es| - 1];
      CountedOnce(init, e);
      assert es == init + [last];
      assert last !in init;
    }
  }

  lemma OnceInAnyOrder(es: seq<Entry>, other: seq<Entry>)
    requires multiset(es) == multiset(other) && OncePerTournament(es)
    ensures OncePerTournament(other)
  {
    forall x, y | 0 <= x < y < |other|
      ensures other[x].tournament != other[y].tournament
    {
      assert other[x] in multiset(es) && other[y] in multiset(es);
      assert other == other[..x] + [other[x]] + other[x + 1..y] + [other[y]] + other[y + 1..];
      CountedOnce(es, other[x]);
    }
  }

  lemma TotalIsBest(es: seq<Entry>, choice: seq<Entry>)
    requires multiset(choice) <= multiset(es)
    requires |choice| == if |es| <= TOP_N then |es| else TOP_N
    ensures Total(choice) <= RatingOf(es).total
    ensures multiset(Best(Sort(es))) <= multiset(es) && |Best(Sort(es))| == |choice|
  {
    Sorted(es);
    var s := Sort(es);
    forall i, j | 0 <= i < j < |s|
      ensures s[i].points >= s[j].points
    {
      assert !Before(s[j], s[i]);
    }
    FirstAreBest(s, choice);
    assert s[..|choice|] == Best(s);
    assert s == s[..|choice|] + s[|choice|..];
  }

  // ---- Collecting a player's entries ------------------------------------------------

  datatype Category = ConstructedOnline | ConstructedOffline | LimitedOnline | LimitedOffline

  function Formats(category: Category): seq<string> {
    if category == ConstructedOnline || category == ConstructedOffline then ["Standard", "V5"] else ["Limited"]
  }

  predicate IsOnline(category: Category) {
    category == ConstructedOnline || category == LimitedOnline
  }

  datatype Tournament = Tournament(uid: Uid, data: Json)

  /** The finished tournaments of the window with a format, online or not, in
      whatever order the table yields them. */
  type Stream = (string, bool) -> seq<Tournament>

  /** What the rules engine says of a tournament, and of a player in it. */
  datatype Engine = Engine(
    played: Tournament -> set<Uid>,
    eligible: Tournament -> bool,
    disqualified: (Tournament, Uid) -> bool,
    nonCompeting: (Tournament, Uid) -> bool,
    points: (Tournament, Uid) -> int,
    details: (Tournament, Uid) -> Json)

  predicate Earns(engine: Engine, t: Tournament, u: Uid) {
    && u in engine.played(t) && engine.eligible(t)
    && !engine.disqualified(t, u) && !engine.nonCompeting(t, u)
  }

  function EntryFor(engine: Engine, t: Tournament, u: Uid): Entry {
    Entry(t.uid, engine.points(t, u), engine.details(t, u))
  }

  function EntriesFor(engine: Engine, ts: seq<Tournament>, u: Uid): seq<Entry> {
    if ts == [] then []
    else
      var t := ts[|ts| - 1];
      EntriesFor(engine, ts[..|ts| - 1], u) + (if Earns(engine, t, u) then [EntryFor(engine, t, u)] else [])
  }

  function Streamed(stream: Stream, formats: seq<string>, online: bool): seq<Tournament> {
    if formats == [] then []
    else Streamed(stream, formats[..|formats| - 1], online) + stream(formats[|formats| - 1], online)
  }

  lemma OneTournamentMore(engine: Engine, ts: seq<Tournament>, t: Tournament, u: Uid)
    ensures EntriesFor(engine, ts + [t], u)
         == EntriesFor(engine, ts, u) + (if Earns(engine, t, u) then [EntryFor(engine, t, u)] else [])
  {
    assert (ts + [t])[..|ts|] == ts;
  }

  function EntriesByUser(engine: Engine, ts: seq<Tournament>, players: set<Uid>): map<Uid, seq<Entry>> {
    map u | u in players :: EntriesFor(engine, ts, u)
  }

  /** Appends one tournament's entries. */
  method AddTournament(engine: Engine, t: Tournament, players: set<Uid>, entries: map<Uid, seq<Entry>>)
    returns (next: map<Uid, seq<Entry>>)
    requires entries.Keys == players
    ensures next.Keys == players
    ensures forall u :: u in players ==>
      next[u] == if Earns(engine, t, u) then entries[u] + [EntryFor(engine, t, u)] else entries[u]
  {
    next := entries;
    var present := engine.played(t) * players;
    if present == {} || !engine.eligible(t) {
      assert forall u :: u in players && u in engine.played(t) ==> u in present;
      return;
    }
    var rest := present;
    while rest != {}
      invariant rest <= present && next.Keys == players
      invariant forall u :: u in players ==>
        next[u] == if Earns(engine, t, u) && u !in rest then entries[u] + [EntryFor(engine, t, u)] else entries[u]
      decreases rest
    {
      var u :| u in rest;
      rest := rest - {u};
      if engine.disqualified(t, u) || engine.nonCompeting(t, u) {
        continue;
      }
      next := next[u := next[u] + [EntryFor(engine, t, u)]];
    }
  }

  lemma EntriesWithOneMore(engine: Engine, ts: seq<Tournament>, t: Tournament, players: set<Uid>,
                           entries: map<Uid, seq<Entry>>, next: map<Uid, seq<Entry>>)
    requires entries == EntriesByUser(engine, ts, players) && next.Keys == players
    requires forall u :: u in players ==>
      next[u] == if Earns(engine, t, u) then entries[u] + [EntryFor(engine, t, u)] else entries[u]
    ensures next == EntriesByUser(engine, ts + [t], players)
  {
    forall u | u in players
      ensures next[u] == EntriesFor(engine, ts + [t], u)
    {
      OneTournamentMore(engine, ts, t, u);
    }
  }

  method CollectEntries(engine: Engine, stream: Stream, formats: seq<string>, online: bool, players: set<Uid>)
    returns (entries: map<Uid, seq<Entry>>)
    ensures entries == EntriesByUser(engine, Streamed(stream, formats, online), players)
  {
    entries := map u | u in players :: [];
    for f := 0 to |formats|
      invariant entries == EntriesByUser(engine, Streamed(stream, formats[..f], online), players)
    {
      ghost var before := Streamed(stream, formats[..f], online);
      var ts := stream(formats[f], online);
      assert before + ts[..0] == before;
      for n := 0 to |ts|
        invariant entries == EntriesByUser(engine, before + ts[..n], players)
      {
        var next := AddTournament(engine, ts[n], players, entries);
        EntriesWithOneMore(engine, before + ts[..n], ts[n], players, entries, next);
        entries := next;
        assert before + ts[..n + 1] == before + ts[..n] + [ts[n]];
      }
      assert ts[..|ts|] == ts;
      assert formats[..f + 1][..f] == formats[..f];
    }
    assert formats[..|formats|] == formats;
  }

  // ---- The recompute ----------------------------------------------------------------

  datatype User = User(ratings: map<Category, Rating>, profile: Json)

  function Rated(engine: Engine, ts: seq<Tournament>, category: Category, u: Uid, user: User): User {
    user.(ratings := user.ratings[category := RatingOf(EntriesFor(engine, ts, u))])
  }

  method ListOf(s: set<Uid>) returns (uids: seq<Uid>)
    ensures forall u :: u in uids <==> u in s
  {
    uids := [];
    var rest := s;
    while rest != {}
      invariant rest <= s
      invariant forall u :: u in uids <==> u in s && u !in rest
      decreases rest
    {
      var u :| u in rest;
      rest := rest - {u};
      uids := uids + [u];
    }
  }

  /** The users among `done` are rated, the others as they were. */
  ghost predicate Progress(engine: Engine, ts: seq<Tournament>, category: Category,
                           before: map<Uid, User>, now: map<Uid, User>, done: set<Uid>) {
    && now.Keys == before.Keys
    && forall u :: u in before ==>
         now[u] == if u in done then Rated(engine, ts, category, u, before[u]) else before[u]
  }

  /** The users whose row differs. */
  ghost function Moved(before: map<Uid, User>, now: map<Uid, User>): set<Uid> {
    set u | u in before && u in now && before[u] != now[u]
  }

  lemma ProgressOneMore(engine: Engine, ts: seq<Tournament>, category: Category,
                        before: map<Uid, User>, now: map<Uid, User>, done: set<Uid>, u: Uid)
    requires Progress(engine, ts, category, before, now, done) && u in now
    ensures var user := Rated(engine, ts, category, u, now[u]);
      && Progress(engine, ts, category, before, now[u := user], done + {u})
      && Moved(before, now[u := user]) == Moved(before, now) + (if user != now[u] then {u} else {})
  {
    assert Rated(engine, ts, category, u, Rated(engine, ts, category, u, before[u])).ratings
        == Rated(engine, ts, category, u, before[u]).ratings;
  }

  function ElementsOf(uids: seq<Uid>): set<Uid> {
    set u | u in uids
  }

  class Roster {
    var users: map<Uid, User>

    constructor (users: map<Uid, User>)
      ensures this.users == users
    {
      this.users := users;
    }

    /** Rates one user, unless the rating did not move. */
    method UpdateUser(engine: Engine, category: Category, u: Uid, entries: seq<Entry>,
                      ghost ts: seq<Tournament>, ghost before: map<Uid, User>, ghost done: set<Uid>)
      returns (moved: bool)
      requires entries == EntriesFor(engine, ts, u) && Progress(engine, ts, category, before, users, done)
      modifies this
      ensures Progress(engine, ts, category, before, users, done + {u})
      ensures Moved(before, users) == Moved(before, old(users)) + (if moved then {u} else {})
    {
      if u !in users {
        return false;
      }
      ProgressOneMore(engine, ts, category, before, users, done, u);
      var rating := RatingOf(entries);
      var user := users[u];
      if category in user.ratings && user.ratings[category] == rating {
        assert user.ratings[category := rating] == user.ratings;
        assert users[u := user] == users;
        return false;
      }
      users := users[u := user.(ratings := user.ratings[category := rating])];
      moved := true;
    }

    method UpdateBatch(engine: Engine, category: Category, batch: seq<Uid>, entries: map<Uid, seq<Entry>>,
                       ghost ts: seq<Tournament>, ghost before: map<Uid, User>, ghost done: set<Uid>)
      returns (updated: set<Uid>)
      requires forall u :: u in batch ==> u in entries && entries[u] == EntriesFor(engine, ts, u)
      requires Progress(engine, ts, category, before, users, done)
      modifies this
      ensures Progress(engine, ts, category, before, users, done + ElementsOf(batch))
      ensures Moved(before, users) == Moved(before, old(users)) + updated
    {
      updated := {};
      assert done + ElementsOf(batch[..0]) == done;
      for k := 0 to |batch|
        invariant Progress(engine, ts, category, before, users, done + ElementsOf(batch[..k]))
        invariant Moved(before, users) == Moved(before, old(users)) + updated
      {
        assert batch[k] in batch;
        var moved :=
          UpdateUser(engine, category, batch[k], entries[batch[k]], ts, before, done + ElementsOf(batch[..k]));
        updated := updated + (if moved then {batch[k]} else {});
        assert batch[..k + 1] == batch[..k] + [batch[k]];
        assert done + ElementsOf(batch[..k + 1]) == done + ElementsOf(batch[..k]) + {batch[k]};
      }
      assert batch[..|batch|] == batch;
    }

    /** Recomputes the players' ratings in a category, a batch of users at a time;
        returns the users whose rating moved. */
    method RecomputeRatings(engine: Engine, stream: Stream, category: Category, players: set<Uid>)
      returns (updated: set<Uid>)
      modifies this
      ensures Progress(engine, Streamed(stream, Formats(category), IsOnline(category)), category, old(users), users,
                       players)
      ensures updated == Moved(old(users), users)
    {
      updated := {};
      assert Moved(users, users) == {};
      if players == {} {
        return;
      }
      var entries := CollectEntries(engine, stream, Formats(category), IsOnline(category), players);
      ghost var ts, before := Streamed(stream, Formats(category), IsOnline(category)), users;
      var uids := ListOf(players);
      var i := 0;
      assert ElementsOf(uids[..0]) == {};
      while i < |uids|
        invariant 0 <= i <= |uids|
        invariant Progress(engine, ts, category, before, users, ElementsOf(uids[..i]))
        invariant updated == Moved(before, users)
      {
        var end := if i + USER_BATCH < |uids| then i + USER_BATCH else |uids|;
        var batch := uids[i..end];
        forall u | u in batch
          ensures u in players
        {
          assert u in uids;
        }
        var moved := UpdateBatch(engine, category, batch, entries, ts, before, ElementsOf(uids[..i]));
        updated := updated + moved;
        assert uids[..end] == uids[..i] + batch;
        assert ElementsOf(uids[..end]) == ElementsOf(uids[..i]) + ElementsOf(batch);
        i := end;
      }
      assert uids[..|uids|] == uids;
      assert ElementsOf(uids) == players;
    }
  }

  // ---- What the recompute promises --------------------------------------------------

  /** The entries without their order. */
  function Earned(engine: Engine, t: Tournament, u: Uid): multiset<Entry> {
    if Earns(engine, t, u) then multiset{EntryFor(engine, t, u)} else multiset{}
  }

  function AllEarned(engine: Engine, ts: seq<Tournament>, u: Uid): multiset<Entry> {
    if ts == [] then multiset{} else AllEarned(engine, Init(ts), u) + Earned(engine, Last(ts), u)
  }

  lemma {:induction false} EarnedAreEntries(engine: Engine, ts: seq<Tournament>, u: Uid)
    ensures multiset(EntriesFor(engine, ts, u)) == AllEarned(engine, ts, u)
    decreases |ts|
  {
    if ts != [] {
      EarnedAreEntries(engine, Init(ts), u);
    }
  }

  lemma {:induction false} EntryOut(engine: Engine, ts: seq<Tournament>, at: nat, u: Uid)
    requires at < |ts|
    ensures AllEarned(engine, ts, u) == AllEarned(engine, Without(ts, at), u) + Earned(engine, ts[at], u)
    decreases |ts|
  {
    if at == |ts| - 1 {
      WithoutLast(ts);
    } else {
      WithoutEarlier(ts, at);
      EntryOut(engine, Init(ts), at, u);
    }
  }

  lemma {:induction false} EntriesReordered(engine: Engine, ts: seq<Tournament>, us: seq<Tournament>, u: Uid)
    requires multiset(ts) == multiset(us)
    ensures AllEarned(engine, ts, u) == AllEarned(engine, us, u)
    decreases |ts|
  {
    SameBagSameLength(ts, us);
    if ts != [] {
      var at := LastIsFound(ts, us);
      EntriesReordered(engine, Init(ts), Without(us, at), u);
      EntryOut(engine, us, at, u);
    }
  }

  /** The table yields each tournament once. */
  predicate EachOnce(ts: seq<Tournament>) {
    forall i, j :: 0 <= i < j < |ts| ==> ts[i].uid != ts[j].uid
  }

  lemma {:induction false} EntriesAreOfTournaments(engine: Engine, ts: seq<Tournament>, u: Uid, e: Entry)
    requires e in EntriesFor(engine, ts, u)
    ensures exists t :: t in ts && t.uid == e.tournament
    decreases |ts|
  {
    var init, t := ts[..|ts| - 1], ts[|ts| - 1];
    if e in EntriesFor(engine, init, u) {
      EntriesAreOfTournaments(engine, init, u, e);
      var s :| s in init && s.uid == e.tournament;
      assert s in ts;
    } else {
      assert t in ts;
    }
  }

  lemma {:induction false} EntriesOnce(engine: Engine, ts: seq<Tournament>, u: Uid)
    requires EachOnce(ts)
    ensures OncePerTournament(EntriesFor(engine, ts, u))
    decreases |ts|
  {
    if ts != [] {
      var init, t := ts[..|ts| - 1], ts[|ts| - 1];
      EntriesOnce(engine, init, u);
      var es := EntriesFor(engine, init, u);
      forall i | 0 <= i < |es|
        ensures es[i].tournament != t.uid
      {
        EntriesAreOfTournaments(engine, init, u, es[i]);
        var s :| s in init && s.uid == es[i].tournament;
        var k :| 0 <= k < |init| && init[k] == s;
        assert ts[k].uid != ts[|ts| - 1].uid;
      }
    }
  }

  /** A player's rating does not depend on the order the tournaments are streamed in. */
  lemma RatingIgnoresStreamOrder(engine: Engine, ts: seq<Tournament>, us: seq<Tournament>, u: Uid)
    requires multiset(ts) == multiset(us) && EachOnce(ts)
    ensures RatingOf(EntriesFor(engine, ts, u)) == RatingOf(EntriesFor(engine, us, u))
  {
    EntriesReordered(engine, ts, us, u);
    EarnedAreEntries(engine, ts, u);
    EarnedAreEntries(engine, us, u);
    EntriesOnce(engine, ts, u);
    RatingIsCanonical(EntriesFor(engine, ts, u), EntriesFor(engine, us, u));
  }

  /** Nor on who else is recomputed, in how many runs: recomputing two groups one
      after the other is recomputing them together. */
  lemma GroupsAddUp(engine: Engine, ts: seq<Tournament>, category: Category,
                    before: map<Uid, User>, between: map<Uid, User>, after: map<Uid, User>, p: set<Uid>, q: set<Uid>)
    requires Progress(engine, ts, category, before, between, p)
    requires Progress(engine, ts, category, between, after, q)
    ensures Progress(engine, ts, category, before, after, p + q)
  {
    forall u | u in before
      ensures after[u] == if u in p + q then Rated(engine, ts, category, u, before[u]) else before[u]
    {
      assert Rated(engine, ts, category, u, Rated(engine, ts, category, u, before[u])).ratings
          == Rated(engine, ts, category, u, before[u]).ratings;
    }
  }

  // ---- The rating in words ----------------------------------------------------------

  /** What the engine makes of the player's part in a tournament: an entry, if it was eligible and
      he played, was not disqualified, and nobody stood in for him. */
  predicate EntryOf(engine: Engine, t: Tournament, u: Uid, e: Entry) {
    && engine.eligible(t) && u in engine.played(t)
    && !(engine.disqualified(t, u) || engine.nonCompeting(t, u))
    && e.tournament == t.uid && e.points == engine.points(t, u) && e.rest == engine.details(t, u)
  }

  lemma {:induction false} EntriesAreEarned(engine: Engine, ts: seq<Tournament>, u: Uid, e: Entry)
    ensures e in EntriesFor(engine, ts, u) <==> exists t :: t in ts && EntryOf(engine, t, u, e)
    decreases |ts|
  {
    if ts != [] {
      var init, last := ts[..|ts| - 1], ts[|ts| - 1];
      EntriesAreEarned(engine, init, u, e);
      assert last in ts && ts == init + [last];
      assert EntryOf(engine, last, u, e) <==> Earns(engine, last, u) && e == EntryFor(engine, last, u);
    }
  }

  /** The tournaments of a category: the constructed ones are those of two formats. */
  lemma StreamedOf(stream: Stream, category: Category, t: Tournament)
    ensures t in Streamed(stream, Formats(category), IsOnline(category))
       <==> match category
            case ConstructedOnline => t in stream("Standard", true) || t in stream("V5", true)
            case ConstructedOffline => t in stream("Standard", false) || t in stream("V5", false)
            case LimitedOnline => t in stream("Limited", true)
            case LimitedOffline => t in stream("Limited", false)
  {
    var formats, online := Formats(category), IsOnline(category);
    if |formats| == 2 {
      assert formats[..1] == ["Standard"] && ["Standard"][..0] == [];
      assert Streamed(stream, ["Standard"], online) == [] + stream("Standard", online);
    } else {
      assert formats[..0] == [];
    }
  }

  lemma StrictlySorted(es: seq<Entry>)
    requires InOrder(es) && OncePerTournament(es)
    ensures forall i, j :: 0 <= i < j < |es| ==>
              es[i].points > es[j].points
              || (es[i].points == es[j].points && TextLess(es[i].tournament, es[j].tournament))
  {
    forall i, j | 0 <= i < j < |es|
      ensures Before(es[i], es[j])
    {
      BeforeOrder(es[i], es[j]);
    }
  }

  /** A player's new rating lists exactly his entries, each once, the best first and equal ones by
      tournament, and totals the points of the first eight; nothing else of him moves, and
      no other user. */
  lemma RatedInWords(engine: Engine, ts: seq<Tournament>, category: Category, before: map<Uid, User>,
                     now: map<Uid, User>, players: set<Uid>, u: Uid)
    requires Progress(engine, ts, category, before, now, players) && EachOnce(ts)
    requires u in players && u in before
    ensures category in now[u].ratings
    ensures var listed := now[u].ratings[category].tournaments;
            && (forall e :: e in listed <==> exists t :: t in ts && EntryOf(engine, t, u, e))
            && (forall i, j :: 0 <= i < j < |listed| ==>
                  listed[i].points > listed[j].points
                  || (listed[i].points == listed[j].points && TextLess(listed[i].tournament, listed[j].tournament)))
            && now[u].ratings[category].total == Total(if |listed| <= 8 then listed else listed[..8])
    ensures now[u].profile == before[u].profile
    ensures now.Keys == before.Keys && forall w :: w in before && w !in players ==> now[w] == before[w]
    ensures forall c :: c != category ==>
              && (c in now[u].ratings <==> c in before[u].ratings)
              && (c in before[u].ratings ==> now[u].ratings[c] == before[u].ratings[c])
  {
    var entries := EntriesFor(engine, ts, u);
    Sorted(entries);
    EntriesOnce(engine, ts, u);
    OnceInAnyOrder(entries, Sort(entries));
    StrictlySorted(Sort(entries));
    forall e
      ensures e in Sort(entries) <==> exists t :: t in ts && EntryOf(engine, t, u, e)
    {
      EntriesAreEarned(engine, ts, u, e);
      assert e in Sort(entries) <==> e in multiset(Sort(entries));
      assert e in entries <==> e in multiset(entries);
    }
  }
}

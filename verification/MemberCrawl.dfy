/** vekn_api.py: crawling the member registry through a search that returns at
    most a hundred results, by splitting prefixes until every answer is complete. */
module MemberCrawl {

  const CAP := 100
  const ID_LENGTH := 7

  datatype Player = Player(veknid: string, rest: string)

  type Search = string -> seq<Player>

  const DIGITS := "0123456789"

  predicate IsMemberId(id: string) {
    |id| == 7 && forall i :: 0 <= i < |id| ==> '0' <= id[i] <= '9'
  }

  predicate Distinct(players: seq<Player>) {
    forall i, j :: 0 <= i < j < |players| ==> players[i].veknid != players[j].veknid
  }

  function Ids(players: seq<Player>): set<string> {
    set p | p in players :: p.veknid
  }

  function Matches(registry: set<string>, prefix: string): set<string> {
    set id | id in registry && prefix <= id
  }

  /** The search lists registered matches, none twice: all of them when there are
      fewer than the cap, and at least the cap otherwise. */
  ghost predicate Answers(players: seq<Player>, registry: set<string>, prefix: string) {
    && Distinct(players)
    && Ids(players) <= Matches(registry, prefix)
    && (|players| < 100 ==> Ids(players) == Matches(registry, prefix))
  }

  ghost predicate Honest(search: Search, registry: set<string>) {
    && (forall id :: id in registry ==> IsMemberId(id))
    && (forall prefix :: Answers(search(prefix), registry, prefix))
  }

  /** What a crawl of one prefix contributes: its matches not seen before, once each. */
  ghost predicate Contributes(found: seq<Player>, registry: set<string>, prefix: string, before: set<string>,
                              after: set<string>)
  {
    && Distinct(found)
    && Ids(found) == after - before
    && before <= after
    && Matches(registry, prefix) <= after
    && Ids(found) <= Matches(registry, prefix)
  }

  /** The player is listed, as given, by some answer of the search. */
  ghost predicate Listed(search: Search, p: Player) {
    exists prefix :: p in search(prefix)
  }

  lemma Joined(a: seq<Player>, b: seq<Player>)
    requires Distinct(a) && Distinct(b) && Ids(a) !! Ids(b)
    ensures Distinct(a + b) && Ids(a + b) == Ids(a) + Ids(b)
  {
    var all := a + b;
    assert forall p :: p in all <==> p in a || p in b;
    forall i, j | 0 <= i < j < |all|
      ensures all[i].veknid != all[j].veknid
    {
      if i < |a| <= j {
        assert a[i] in a && b[j - |a|] in b;
        assert a[i].veknid in Ids(a) && b[j - |a|].veknid in Ids(b);
      }
    }
  }

  lemma DigitsAreListed(c: char)
    requires '0' <= c <= '9'
    ensures c in DIGITS && exists d :: 0 <= d < 10 && DIGITS[d] == c
  {
    assert DIGITS[c as int - '0' as int] == c;
  }

  /** A longer prefix of an id is the shorter one and the id's next digit. */
  lemma NextDigit(prefix: string, id: string)
    requires IsMemberId(id) && prefix <= id && |prefix| < ID_LENGTH
    ensures exists d :: 0 <= d < 10 && prefix + [DIGITS[d]] <= id
  {
    DigitsAreListed(id[|prefix|]);
    var d :| 0 <= d < |DIGITS| && DIGITS[d] == id[|prefix|];
    assert prefix + [DIGITS[d]] == id[..|prefix| + 1];
  }

  lemma {:induction false} DistinctIds(players: seq<Player>)
    requires Distinct(players)
    ensures |Ids(players)| == |players|
    decreases |players|
  {
    if players != [] {
      var init, last := players[..|players| - 1], players[|players| - 1];
      DistinctIds(init);
      assert players == init + [last];
      assert Ids(players) == Ids(init) + {last.veknid};
    }
  }

  /** A full id has at most one match, so its answer is never capped. */
  lemma FullPrefixIsNotCapped(search: Search, registry: set<string>, prefix: string)
    requires Honest(search, registry) && |prefix| == ID_LENGTH
    ensures |search(prefix)| < CAP
  {
    var players := search(prefix);
    assert Answers(players, registry, prefix);
    forall i | 0 <= i < |players|
      ensures players[i].veknid == prefix
    {
      assert players[i] in players;
      assert players[i].veknid in Matches(registry, prefix);
    }
    assert forall id :: id in Ids(players) ==> id == prefix;
    DistinctIds(players);
    assert Ids(players) == {} || Ids(players) == {prefix};
  }

  class Crawl {
    var seen: set<string>

    constructor ()
      ensures seen == {}
    {
      seen := {};
    }

    /** Keeps the players not seen yet. */
    method KeepNew(players: seq<Player>) returns (unique: seq<Player>)
      requires Distinct(players) && forall p :: p in players ==> p.veknid != ""
      modifies this
      ensures Distinct(unique) && Ids(unique) == Ids(players) - old(seen)
      ensures seen == old(seen) + Ids(players)
      ensures forall p :: p in unique ==> p in players
    {
      unique := [];
      for i := 0 to |players|
        invariant Distinct(unique) && forall p :: p in unique ==> p in players
        invariant Ids(unique) == Ids(players[..i]) - old(seen)
        invariant seen == old(seen) + Ids(players[..i])
      {
        var player := players[i];
        assert player in players;
        assert players[..i + 1] == players[..i] + [player];
        assert Ids(players[..i + 1]) == Ids(players[..i]) + {player.veknid};
        if player.veknid != "" && player.veknid !in seen {
          seen := seen + {player.veknid};
          Joined(unique, [player]);
          unique := unique + [player];
        }
      }
      assert players[..|players|] == players;
    }

    method FetchByPrefix(search: Search, prefix: string, ghost registry: set<string>) returns (found: seq<Player>)
      requires Honest(search, registry) && |prefix| <= ID_LENGTH
      modifies this
      ensures Contributes(found, registry, prefix, old(seen), seen)
      ensures forall p :: p in found ==> Listed(search, p)
      decreases ID_LENGTH - |prefix|
    {
      var players := search(prefix);
      assert Answers(players, registry, prefix);
      forall p | p in players
        ensures p.veknid != ""
      {
        assert p.veknid in Ids(players);
      }
      found := KeepNew(players);
      if |players| >= CAP {
        assert |prefix| < ID_LENGTH by {
          if |prefix| == ID_LENGTH {
            FullPrefixIsNotCapped(search, registry, prefix);
          }
        }
        for digit := 0 to 10
          invariant Distinct(found) && Ids(found) == seen - old(seen) && old(seen) <= seen
          invariant Ids(found) <= Matches(registry, prefix)
          invariant forall p :: p in found ==> Listed(search, p)
          invariant forall d :: 0 <= d < digit ==> Matches(registry, prefix + [DIGITS[d]]) <= seen
        {
          var subPlayers := FetchByPrefix(search, prefix + [DIGITS[digit]], registry);
          assert Matches(registry, prefix + [DIGITS[digit]]) <= Matches(registry, prefix);
          Joined(found, subPlayers);
          found := found + subPlayers;
        }
        forall id | id in Matches(registry, prefix)
          ensures id in seen
        {
          NextDigit(prefix, id);
        }
      }
    }

    /** All members, prefix by prefix from "00" to "99". */
    method FetchAllMembers(search: Search, ghost registry: set<string>) returns (members: seq<Player>)
      requires Honest(search, registry) && seen == {}
      modifies this
      ensures Distinct(members) && Ids(members) == registry
      ensures forall p :: p in members ==> Listed(search, p)
    {
      members := [];
      for prefix := 0 to 100
        invariant Distinct(members) && Ids(members) == seen
        invariant forall p :: p in members ==> Listed(search, p)
        invariant seen <= registry
        invariant CoveredBelow(registry, prefix, seen)
      {
        ghost var before := seen;
        var players := FetchByPrefix(search, TwoDigits(prefix), registry);
        Joined(members, players);
        members := members + players;
        CoveredNext(registry, prefix, before, seen);
      }
      AllCovered(registry, seen);
    }
  }

  /** The matches of the first n two-digit prefixes have been seen. */
  ghost predicate CoveredBelow(registry: set<string>, n: nat, seen: set<string>)
    requires n <= 100
  {
    forall d :: 0 <= d < n ==> Matches(registry, TwoDigits(d)) <= seen
  }

  lemma CoveredNext(registry: set<string>, n: nat, before: set<string>, after: set<string>)
    requires n < 100 && CoveredBelow(registry, n, before)
    requires before <= after && Matches(registry, TwoDigits(n)) <= after
    ensures CoveredBelow(registry, n + 1, after)
  {
  }

  lemma AllCovered(registry: set<string>, seen: set<string>)
    requires (forall id :: id in registry ==> IsMemberId(id)) && CoveredBelow(registry, 100, seen)
    ensures registry <= seen
  {
    forall id | id in registry
      ensures id in seen
    {
      StartsWithTwoDigits(id);
      var n :| 0 <= n < 100 && TwoDigits(n) <= id;
      assert id in Matches(registry, TwoDigits(n));
    }
  }

  function TwoDigits(n: nat): (text: string)
    requires n < 100
    ensures |text| == 2
  {
    [DIGITS[n / 10], DIGITS[n % 10]]
  }

  lemma StartsWithTwoDigits(id: string)
    requires IsMemberId(id)
    ensures exists n :: 0 <= n < 100 && TwoDigits(n) <= id
  {
    DigitsAreListed(id[0]);
    DigitsAreListed(id[1]);
    var a :| 0 <= a < |DIGITS| && DIGITS[a] == id[0];
    var b :| 0 <= b < |DIGITS| && DIGITS[b] == id[1];
    var n := 10 * a + b;
    assert n / 10 == a && n % 10 == b;
    assert TwoDigits(n) == id[..2];
  }
}

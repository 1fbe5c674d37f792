/** What the seating score promises: it does not depend on how players are named
    nor on the order of rounds and tables, its counts mean what they are named
    for, and its rules imply one another. */
module SeatingLaws {
  import opened Lists
  import opened SeatingMatrix
  import opened SeatingScore
  import opened Sums

  // ---- Renaming players, reordering tables and rounds -------------------------------

  function Renamed(t: Table, p: nat -> nat): Table {
    seq(|t|, s requires 0 <= s < |t| => p(t[s]))
  }

  function AllRenamed(ts: seq<Table>, p: nat -> nat): (r: seq<Table>)
    ensures |r| == |ts|
    ensures forall n :: 0 <= n < |ts| ==> r[n] == Renamed(ts[n], p)
  {
    seq(|ts|, n requires 0 <= n < |ts| => Renamed(ts[n], p))
  }

  lemma {:induction false} ShareRenamed(all: set<nat>, p: nat -> nat, t: Table, s: nat, rels: nat, i: nat, j: nat,
                                        k: nat)
    requires Injective(all, p) && i in all && j in all
    requires forall a :: 0 <= a < |t| ==> t[a] in all
    requires Scored(t) && s < |t| && rels < |t| && k < 8
    ensures OpponentShare(Renamed(t, p), s, rels, p(i), p(j), k) == OpponentShare(t, s, rels, i, j, k)
  {
    if rels > 0 {
      ShareRenamed(all, p, t, s, rels - 1, i, j, k);
      var u := (s + rels) % |t|;
      assert t[s] in all && t[u] in all;
    }
  }

  lemma {:induction false} SeatsRenamed(all: set<nat>, p: nat -> nat, t: Table, seats: nat, i: nat, j: nat, k: nat)
    requires Injective(all, p) && i in all && j in all
    requires forall a :: 0 <= a < |t| ==> t[a] in all
    requires Scored(t) && seats <= |t| && k < 8
    ensures SeatsShare(Renamed(t, p), seats, p(i), p(j), k) == SeatsShare(t, seats, i, j, k)
  {
    if seats > 0 {
      SeatsRenamed(all, p, t, seats - 1, i, j, k);
      ShareRenamed(all, p, t, seats - 1, |t| - 1, i, j, k);
      assert t[seats - 1] in all;
    }
  }

  lemma {:induction false} MeasureRenamed(all: set<nat>, p: nat -> nat, ts: seq<Table>, i: nat, j: nat, k: nat)
    requires Injective(all, p) && i in all && j in all && Players(ts) <= all && k < 8
    ensures Measure(AllRenamed(ts, p), p(i), p(j), k) == Measure(ts, i, j, k)
  {
    if ts != [] {
      var init, t := ts[..|ts| - 1], ts[|ts| - 1];
      assert AllRenamed(ts, p)[..|ts| - 1] == AllRenamed(init, p);
      MeasureRenamed(all, p, init, i, j, k);
      forall a | 0 <= a < |t|
        ensures t[a] in all
      {
        assert t[a] in t;
        assert t[a] in Players(ts);
      }
      if Scored(t) {
        SeatsRenamed(all, p, t, |t|, i, j, k);
      }
    }
  }

  /** The matrix does not see the order of the tables. */
  lemma {:induction false} MeasureWithout(ts: seq<Table>, at: nat, i: nat, j: nat, k: nat)
    requires at < |ts| && k < 8
    ensures Measure(ts, i, j, k) == Measure(Without(ts, at), i, j, k) + TableMeasure(ts[at], i, j, k)
    decreases |ts|
  {
    if at == |ts| - 1 {
      WithoutLast(ts);
    } else {
      WithoutEarlier(ts, at);
      MeasureWithout(Init(ts), at, i, j, k);
    }
  }

  lemma {:induction false} MeasureReordered(ts: seq<Table>, us: seq<Table>, i: nat, j: nat, k: nat)
    requires multiset(ts) == multiset(us) && k < 8
    ensures Measure(ts, i, j, k) == Measure(us, i, j, k)
    decreases |ts|
  {
    SameBagSameLength(ts, us);
    if ts != [] {
      var at := LastIsFound(ts, us);
      MeasureReordered(Init(ts), Without(us, at), i, j, k);
      MeasureWithout(us, at, i, j, k);
    }
  }

  /** The same seating under other names and in another order; who is counted stays counted. */
  ghost predicate SameSeating(ts: seq<Table>, us: seq<Table>, p: nat -> nat) {
    && Injective(Players(ts), p) && (forall x :: x in Players(ts) ==> (p(x) == 0 <==> x == 0))
    && multiset(us) == multiset(AllRenamed(ts, p))
  }

  lemma PlayersRenamed(ts: seq<Table>, us: seq<Table>, p: nat -> nat)
    requires SameSeating(ts, us, p)
    ensures Onto(Players(ts), p, Players(us))
  {
    var rs := AllRenamed(ts, p);
    assert forall t :: t in us <==> t in rs by {
      forall t
        ensures t in us <==> t in rs
      {
        assert t in us <==> t in multiset(us);
        assert t in rs <==> t in multiset(rs);
      }
    }
    forall x | x in Players(ts)
      ensures p(x) in Players(us)
    {
      var t :| t in ts && x in t;
      var n :| 0 <= n < |ts| && ts[n] == t;
      var s :| 0 <= s < |t| && t[s] == x;
      assert rs[n] in us && rs[n][s] == p(x);
      assert p(x) in rs[n];
    }
    forall u | u in Players(us)
      ensures exists x :: x in Players(ts) && p(x) == u
    {
      var t :| t in us && u in t;
      var n :| 0 <= n < |rs| && rs[n] == t;
      var s :| 0 <= s < |t| && t[s] == u;
      assert ts[n] in ts && ts[n][s] in ts[n];
      assert ts[n][s] in Players(ts) && p(ts[n][s]) == u;
    }
  }

  lemma EntrantsRenamed(ts: seq<Table>, us: seq<Table>, p: nat -> nat)
    requires SameSeating(ts, us, p)
    ensures Onto(Entrants(ts), p, Entrants(us)) && Injective(Entrants(ts), p)
  {
    PlayersRenamed(ts, us, p);
  }

  lemma MeasureSame(ts: seq<Table>, us: seq<Table>, p: nat -> nat, i: nat, j: nat, k: nat)
    requires SameSeating(ts, us, p) && i in Players(ts) && j in Players(ts) && k < 8
    ensures Measure(us, p(i), p(j), k) == Measure(ts, i, j, k)
  {
    MeasureRenamed(Players(ts), p, ts, i, j, k);
    MeasureReordered(us, AllRenamed(ts, p), p(i), p(j), k);
  }

  lemma {:induction false} RepeatsSame(ts: seq<Table>, us: seq<Table>, p: nat -> nat, i: nat, j: nat, lo: nat, hi: nat)
    requires SameSeating(ts, us, p) && i in Players(ts) && j in Players(ts) && lo <= hi <= 8
    ensures Repeats(us, p(i), p(j), lo, hi) == Repeats(ts, i, j, lo, hi)
  {
    if lo < hi {
      RepeatsSame(ts, us, p, i, j, lo, hi - 1);
      MeasureSame(ts, us, p, i, j, hi - 1);
    }
  }

  lemma PairCostsSame(rule: PairRule, ts: seq<Table>, us: seq<Table>, rounds: nat, p: nat -> nat)
    requires SameSeating(ts, us, p)
    ensures PairSum(Entrants(us), PairCosts(rule, us, rounds)) == PairSum(Entrants(ts), PairCosts(rule, ts, rounds))
  {
    EntrantsRenamed(ts, us, p);
    forall i, j | i in Entrants(ts) && j in Entrants(ts) && i != j
      ensures PairCosts(rule, ts, rounds)(i, j) == PairCosts(rule, us, rounds)(p(i), p(j))
    {
      MeasureSame(ts, us, p, i, j, 0);
      MeasureSame(ts, us, p, i, j, 1);
      MeasureSame(ts, us, p, i, j, 4);
      RepeatsSame(ts, us, p, i, j, 1, 6);
      RepeatsSame(ts, us, p, i, j, 6, 8);
    }
    PairSumRename(Entrants(ts), PairCosts(rule, ts, rounds), p, Entrants(us), PairCosts(rule, us, rounds));
  }

  lemma SeatCostsSame(fifthOnly: bool, ts: seq<Table>, us: seq<Table>, p: nat -> nat)
    requires SameSeating(ts, us, p)
    ensures SumOver(Entrants(us), SeatCosts(fifthOnly, us)) == SumOver(Entrants(ts), SeatCosts(fifthOnly, ts))
  {
    EntrantsRenamed(ts, us, p);
    forall i | i in Entrants(ts)
      ensures SeatCosts(fifthOnly, ts)(i) == SeatCosts(fifthOnly, us)(p(i))
    {
      RepeatsSame(ts, us, p, i, i, if fifthOnly then 7 else 3, 8);
    }
    SumRename(Entrants(ts), SeatCosts(fifthOnly, ts), p, Entrants(us), SeatCosts(fifthOnly, us));
  }

  /** Equal costs over two sets of players are equal scores. */
  lemma EqualCostsEqualScores(all: set<nat>, ts: seq<Table>, others: set<nat>, us: seq<Table>, rounds: nat,
                              s: Score, s': Score)
    requires IsScoreOver(s, all, ts, rounds) && IsScoreOver(s', others, us, rounds)
    requires forall rule :: PairSum(others, PairCosts(rule, us, rounds)) == PairSum(all, PairCosts(rule, ts, rounds))
    requires forall fifthOnly :: SumOver(others, SeatCosts(fifthOnly, us)) == SumOver(all, SeatCosts(fifthOnly, ts))
    ensures s == s'
  {
  }

  /** Renaming players one-to-one, 0 apart, and moving tables and rounds about, the number
      of rounds staying the same, changes none of the seven scores, although the
      scan looks only at pairs j < i. */
  lemma RelabellingInvariance(ts: seq<Table>, us: seq<Table>, rounds: nat, p: nat -> nat, s: Score, s': Score)
    requires SameSeating(ts, us, p)
    requires IsScore(s, ts, rounds) && IsScore(s', us, rounds)
    ensures s == s'
  {
    forall rule
      ensures PairSum(Entrants(us), PairCosts(rule, us, rounds)) == PairSum(Entrants(ts), PairCosts(rule, ts, rounds))
    {
      PairCostsSame(rule, ts, us, rounds, p);
    }
    forall fifthOnly
      ensures SumOver(Entrants(us), SeatCosts(fifthOnly, us)) == SumOver(Entrants(ts), SeatCosts(fifthOnly, ts))
    {
      SeatCostsSame(fifthOnly, ts, us, p);
    }
    EqualCostsEqualScores(Entrants(ts), ts, Entrants(us), us, rounds, s, s');
  }

  // ---- What the counts mean ---------------------------------------------------------

  /** Nobody sits twice at the table. */
  ghost predicate Proper(t: Table) {
    forall a, b :: 0 <= a < b < |t| ==> t[a] != t[b]
  }

  lemma {:induction false} NeverOwnOpponent(t: Table, s: nat, rels: nat, i: nat, k: nat)
    requires Scored(t) && Proper(t) && s < |t| && rels < |t| && k < 8
    ensures OpponentShare(t, s, rels, i, i, k) == 0
  {
    if rels > 0 {
      NeverOwnOpponent(t, s, rels - 1, i, k);
      FurtherRound(|t|, s, 0, rels);
    }
  }

  lemma FurtherRound(size: nat, s: nat, r: nat, q: nat)
    requires (size == 4 || size == 5) && s < size && r < q < size
    ensures (s + r) % size != (s + q) % size
  {
    if size == 4 {
      assert (s + r) % 4 != (s + q) % 4;
    } else {
      assert (s + r) % 5 != (s + q) % 5;
    }
  }

  /** i's own row at a table: the row of the one seat i holds there. */
  lemma {:induction false} OwnRow(t: Table, seats: nat, i: nat, k: nat)
    requires Scored(t) && Proper(t) && seats <= |t| && k < 8
    ensures i !in t[..seats] ==> SeatsShare(t, seats, i, i, k) == 0
    ensures forall s: nat :: s < seats && t[s] == i ==> SeatsShare(t, seats, i, i, k) == Position(|t|, s)[k]
  {
    if seats > 0 {
      OwnRow(t, seats - 1, i, k);
      NeverOwnOpponent(t, seats - 1, |t| - 1, i, k);
      assert t[..seats] == t[..seats - 1] + [t[seats - 1]];
    }
  }

  function Opposite(t: Table, s: nat, r: nat): nat
    requires Scored(t) && s < |t|
  {
    t[(s + r) % |t|]
  }

  /** Seat s has met j within the first `rels` relations. */
  ghost predicate Reached(t: Table, s: nat, rels: nat, j: nat)
    requires Scored(t) && s < |t|
  {
    exists r: nat :: 1 <= r <= rels && Opposite(t, s, r) == j
  }

  lemma ReachedNext(t: Table, s: nat, rels: nat, j: nat)
    requires Scored(t) && Proper(t) && s < |t| && 1 <= rels < |t|
    ensures Reached(t, s, rels, j) <==> Reached(t, s, rels - 1, j) || Opposite(t, s, rels) == j
    ensures !(Reached(t, s, rels - 1, j) && Opposite(t, s, rels) == j)
  {
    if Reached(t, s, rels - 1, j) {
      var r: nat :| 1 <= r <= rels - 1 && Opposite(t, s, r) == j;
      FurtherRound(|t|, s, r, rels);
    }
  }

  lemma {:induction false} MetOnce(t: Table, s: nat, rels: nat, i: nat, j: nat)
    requires Scored(t) && Proper(t) && s < |t| && rels < |t|
    ensures OpponentShare(t, s, rels, i, j, 0) == if t[s] == i && Reached(t, s, rels, j) then 1 else 0
  {
    if rels > 0 {
      MetOnce(t, s, rels - 1, i, j);
      OpponentRow(|t|, rels - 1);
      ReachedNext(t, s, rels, j);
    }
  }

  /** Going once round the table meets everybody else. */
  lemma MeetsAll(t: Table, s: nat, u: nat)
    requires Scored(t) && s < |t| && u < |t| && s != u
    ensures Reached(t, s, |t| - 1, t[u])
  {
    var r := if s < u then u - s else u + |t| - s;
    assert (s + r) % |t| == u by {
      if s >= u {
        assert s + r == u + |t|;
      }
    }
    assert 1 <= r <= |t| - 1;
    assert Opposite(t, s, r) == t[u];
  }

  lemma {:induction false} SeatsMeetOnce(t: Table, seats: nat, i: nat, j: nat)
    requires Scored(t) && Proper(t) && seats <= |t| && i != j
    ensures SeatsShare(t, seats, i, j, 0) == if i in t[..seats] && j in t then 1 else 0
  {
    if seats > 0 {
      var s := seats - 1;
      SeatsMeetOnce(t, s, i, j);
      MetOnce(t, s, |t| - 1, i, j);
      assert t[..seats] == t[..s] + [t[s]];
      if t[s] == i && j in t {
        var u :| 0 <= u < |t| && t[u] == j;
        MeetsAll(t, s, u);
      }
    }
  }

  ghost function Together(ts: seq<Table>, i: nat, j: nat): nat {
    if ts == [] then 0
    else
      var t := ts[|ts| - 1];
      Together(ts[..|ts| - 1], i, j) + (if Scored(t) && i in t && j in t then 1 else 0)
  }

  ghost predicate AllProper(ts: seq<Table>) {
    forall n :: 0 <= n < |ts| ==> Proper(ts[n])
  }

  /** Entry (i, j, 0) counts the tables i and j share; (i, i, 0) the tables i plays. */
  lemma {:induction false} CountsAreSharedTables(ts: seq<Table>, i: nat, j: nat)
    requires AllProper(ts)
    ensures Measure(ts, i, j, 0) == Together(ts, i, j)
  {
    if ts != [] {
      CountsAreSharedTables(ts[..|ts| - 1], i, j);
      var t := ts[|ts| - 1];
      if Scored(t) {
        assert t[..|t|] == t;
        if i == j {
          OwnRow(t, |t|, i, 0);
        } else {
          SeatsMeetOnce(t, |t|, i, j);
        }
      }
    }
  }

  // ---- Double counting --------------------------------------------------------------

  ghost function MeetingsOf(ts: seq<Table>, i: nat): nat -> int {
    (j: nat) => Measure(ts, i, j, 0)
  }

  ghost function MeetingsAt(t: Table, i: nat): nat -> int {
    (j: nat) => TableMeasure(t, i, j, 0)
  }

  ghost function Members(t: Table): set<nat> {
    set p | p in t
  }

  lemma {:induction false} MembersAreSeats(t: Table)
    requires Proper(t)
    ensures |Members(t)| == |t|
  {
    if t != [] {
      var init, last := t[..|t| - 1], t[|t| - 1];
      MembersAreSeats(init);
      assert t == init + [last];
      assert last !in init;
      assert Members(t) == Members(init) + {last};
    }
  }

  lemma MetAtTable(t: Table, i: nat, j: nat)
    requires Scored(t) && Proper(t) && i != j
    ensures MeetingsAt(t, i)(j) == if i in t && j in t then 1 else 0
  {
    assert t[..|t|] == t;
    SeatsMeetOnce(t, |t|, i, j);
  }

  /** At one table a player meets everyone seated there but himself. */
  lemma TableOpponents(t: Table, i: nat, all: set<nat>)
    requires Scored(t) && Proper(t) && Members(t) <= all
    ensures SumOver(all - {i}, MeetingsAt(t, i)) == if i in t then |t| - 1 else 0
  {
    var f, others := MeetingsAt(t, i), Members(t) - {i};
    forall j | j in all - {i}
      ensures f(j) == if i in t && j in Members(t) then 1 else 0
    {
      MetAtTable(t, i, j);
    }
    if i in t {
      SumPart(others, all - {i}, f);
      SumOnes(others, f);
      MembersAreSeats(t);
      assert i in Members(t);
    } else {
      SumZero(all - {i}, f);
    }
  }

  /** A player's own row: a table played counts once, with its seats, in exactly
      one of the five seat columns. */
  lemma TableRow(t: Table, i: nat)
    requires Scored(t) && Proper(t)
    ensures TableMeasure(t, i, i, 0) == if i in t then 1 else 0
    ensures TableMeasure(t, i, i, 1) == if i in t then |t| else 0
    ensures TableMeasure(t, i, i, 0) == TableMeasure(t, i, i, 3) + TableMeasure(t, i, i, 4)
      + TableMeasure(t, i, i, 5) + TableMeasure(t, i, i, 6) + TableMeasure(t, i, i, 7)
  {
    assert t[..|t|] == t;
    OwnRow(t, |t|, i, 0);
    OwnRow(t, |t|, i, 1);
    OwnRow(t, |t|, i, 3);
    OwnRow(t, |t|, i, 4);
    OwnRow(t, |t|, i, 5);
    OwnRow(t, |t|, i, 6);
    OwnRow(t, |t|, i, 7);
    if i in t {
      var s: nat :| s < |t| && t[s] == i;
      PositionRow(|t|, s);
    }
  }

  lemma PositionRow(size: nat, s: nat)
    requires (size == 4 || size == 5) && s < size
    ensures var row := Position(size, s);
      row[0] == 1 && row[1] == size && row[0] == row[3] + row[4] + row[5] + row[6] + row[7]
  {
    if size == 4 {
      assert s == 0 || s == 1 || s == 2 || s == 3;
    } else {
      assert s == 0 || s == 1 || s == 2 || s == 3 || s == 4;
    }
  }

  /** A player's opponent counts add up to the seats at his tables less the tables he played. */
  lemma {:induction false} OpponentsAddUp(ts: seq<Table>, i: nat, all: set<nat>)
    requires AllProper(ts) && Players(ts) <= all
    ensures SumOver(all - {i}, MeetingsOf(ts, i)) == Measure(ts, i, i, 1) - Measure(ts, i, i, 0)
  {
    if ts == [] {
      SumZero(all - {i}, MeetingsOf(ts, i));
    } else {
      var init, t := ts[..|ts| - 1], ts[|ts| - 1];
      assert Players(init) <= Players(ts) && Members(t) <= Players(ts);
      OpponentsAddUp(init, i, all);
      if Scored(t) {
        TableOpponents(t, i, all);
        TableRow(t, i);
      } else {
        SumZero(all - {i}, MeetingsAt(t, i));
      }
      SumAdd(all - {i}, MeetingsOf(init, i), MeetingsAt(t, i), MeetingsOf(ts, i));
    }
  }

  lemma {:induction false} TablesPlayedSplit(ts: seq<Table>, i: nat)
    requires AllProper(ts)
    ensures Measure(ts, i, i, 0) == Measure(ts, i, i, 3) + Measure(ts, i, i, 4) + Measure(ts, i, i, 5)
      + Measure(ts, i, i, 6) + Measure(ts, i, i, 7)
  {
    if ts != [] {
      TablesPlayedSplit(ts[..|ts| - 1], i);
      if Scored(ts[|ts| - 1]) {
        TableRow(ts[|ts| - 1], i);
      }
    }
  }

  // ---- What the counts force --------------------------------------------------------

  /** Two players who share three tables repeat a position group. */
  lemma ThreeMeetingsCost(ts: seq<Table>, rounds: nat, s: Score, i: nat, j: nat)
    requires IsScore(s, ts, rounds) && i in Players(ts) && j in Players(ts) && 0 < i && 0 < j && i != j
    requires Measure(ts, i, j, 0) >= 3
    ensures s.r9 > 0
  {
    MeetingsSplit(ts, i, j);
    assert Repeats(ts, i, j, 6, 7) == Repeat(Measure(ts, i, j, 6));
    assert PairCosts(R9, ts, rounds)(i, j) > 0;
    PairTermAtMost(Entrants(ts), PairCosts(R9, ts, rounds), i, j);
  }

  /** A player at six tables repeats a seat. */
  lemma SixTablesCost(ts: seq<Table>, rounds: nat, s: Score, i: nat)
    requires IsScore(s, ts, rounds) && AllProper(ts) && i in Entrants(ts)
    requires Measure(ts, i, i, 0) >= 6
    ensures s.r7 > 0
  {
    TablesPlayedSplit(ts, i);
    assert Repeats(ts, i, i, 3, 4) == Repeat(Measure(ts, i, i, 3));
    assert Repeats(ts, i, i, 3, 5) == Repeats(ts, i, i, 3, 4) + Repeat(Measure(ts, i, i, 4));
    assert Repeats(ts, i, i, 3, 6) == Repeats(ts, i, i, 3, 5) + Repeat(Measure(ts, i, i, 5));
    assert Repeats(ts, i, i, 3, 7) == Repeats(ts, i, i, 3, 6) + Repeat(Measure(ts, i, i, 6));
    assert SeatCosts(false, ts)(i) > 0;
    TermAtMost(Entrants(ts), SeatCosts(false, ts), i);
  }

  lemma PairRulesOrdered(all: set<nat>, ts: seq<Table>, rounds: nat)
    ensures PairSum(all, PairCosts(R1, ts, rounds)) <= PairSum(all, PairCosts(R6, ts, rounds))
    ensures PairSum(all, PairCosts(R2, ts, rounds)) <= PairSum(all, PairCosts(R4, ts, rounds))
  {
    forall i, j
      ensures PairCosts(R1, ts, rounds)(i, j) <= PairCosts(R6, ts, rounds)(i, j)
    {
      FiveRelations(ts, i, j);
    }
    PairSumAtMost(all, PairCosts(R1, ts, rounds), PairCosts(R6, ts, rounds));
    PairSumAtMost(all, PairCosts(R2, ts, rounds), PairCosts(R4, ts, rounds));
  }

  lemma SeatRulesOrdered(all: set<nat>, ts: seq<Table>)
    ensures SumOver(all, SeatCosts(true, ts)) <= SumOver(all, SeatCosts(false, ts))
  {
    forall i
      ensures SeatCosts(true, ts)(i) <= SeatCosts(false, ts)(i)
    {
      FifthIsASeat(ts, i);
    }
    SumAtMost(all, SeatCosts(true, ts), SeatCosts(false, ts));
  }

  /** The narrower rules never score above the wider ones. */
  lemma RulesAreOrdered(ts: seq<Table>, rounds: nat, s: Score)
    requires IsScore(s, ts, rounds)
    ensures s.r1 <= s.r6 && s.r2 <= s.r4 && s.r5 <= s.r7
  {
    PairRulesOrdered(Entrants(ts), ts, rounds);
    SeatRulesOrdered(Entrants(ts), ts);
  }

  lemma FifthIsASeat(ts: seq<Table>, i: nat)
    ensures Repeats(ts, i, i, 7, 8) <= Repeats(ts, i, i, 3, 8)
  {
    assert Repeats(ts, i, i, 7, 8) == Repeat(Measure(ts, i, i, 7));
  }
}

/** engine/compare_seating.py: the seven integer scores read off the count matrix
    by scanning half of its pairs, and why renaming and reordering cannot move them. */
module SeatingScore {
  import opened Base
  import opened SeatingMatrix
  import opened Sums

  function Repeat(count: nat): nat {
    if count > 1 then 1 else 0
  }

  function Repeats(ts: seq<Table>, i: nat, j: nat, lo: nat, hi: nat): nat
    requires lo <= hi <= 8
  {
    if lo == hi then 0 else Repeats(ts, i, j, lo, hi - 1) + Repeat(Measure(ts, i, j, hi - 1))
  }

  datatype PairRule = R1 | R2 | R4 | R6 | R9

  /** What one pair of players costs under a rule: R1 repeated prey or predator,
      R2 opponents in every round, R4 repeated opponents, R6 a repeated relation,
      R9 a repeated position group. */
  function PairCost(rule: PairRule, ts: seq<Table>, rounds: nat, i: nat, j: nat): nat {
    match rule
    case R1 => Repeat(Measure(ts, i, j, 1)) + Repeat(Measure(ts, i, j, 4))
    case R2 => if Measure(ts, i, j, 0) > 1 && Measure(ts, i, j, 0) >= rounds then 1 else 0
    case R4 => Repeat(Measure(ts, i, j, 0))
    case R6 => Repeats(ts, i, j, 1, 6)
    case R9 => Repeats(ts, i, j, 6, 8)
  }

  /** What one player costs: R5 a repeated fifth seat, R7 any repeated seat. */
  function SeatCost(fifthOnly: bool, ts: seq<Table>, i: nat): nat {
    Repeats(ts, i, i, if fifthOnly then 7 else 3, 8)
  }

  ghost function PairCosts(rule: PairRule, ts: seq<Table>, rounds: nat): (nat, nat) -> int {
    (i: nat, j: nat) => PairCost(rule, ts, rounds, i, j)
  }

  ghost function SeatCosts(fifthOnly: bool, ts: seq<Table>): nat -> int {
    (i: nat) => SeatCost(fifthOnly, ts, i)
  }

  datatype Score = Score(r1: nat, r2: nat, r4: nat, r5: nat, r6: nat, r7: nat, r9: nat)

  /** The scans run from 1: a player numbered 0 has a row and a column, and is passed over. */
  ghost function Entrants(ts: seq<Table>): set<nat> {
    Players(ts) - {0}
  }

  /** A pair rule's score, doubled, is its cost over the ordered pairs of some players; a seat
      rule's score is its cost over those players. */
  ghost predicate IsScoreOver(s: Score, all: set<nat>, ts: seq<Table>, rounds: nat) {
    && 2 * s.r1 == PairSum(all, PairCosts(R1, ts, rounds))
    && 2 * s.r2 == PairSum(all, PairCosts(R2, ts, rounds))
    && 2 * s.r4 == PairSum(all, PairCosts(R4, ts, rounds))
    && s.r5 == SumOver(all, SeatCosts(true, ts))
    && 2 * s.r6 == PairSum(all, PairCosts(R6, ts, rounds))
    && s.r7 == SumOver(all, SeatCosts(false, ts))
    && 2 * s.r9 == PairSum(all, PairCosts(R9, ts, rounds))
  }

  ghost predicate IsScore(s: Score, ts: seq<Table>, rounds: nat) {
    IsScoreOver(s, Entrants(ts), ts, rounds)
  }

  // ---- Half of the pairs is enough --------------------------------------------------

  lemma {:induction false} RepeatsMirror(ts: seq<Table>, i: nat, j: nat, lo: nat, hi: nat)
    requires i != j && 5 <= lo <= hi <= 8
    ensures Repeats(ts, i, j, lo, hi) == Repeats(ts, j, i, lo, hi)
  {
    if lo < hi {
      RepeatsMirror(ts, i, j, lo, hi - 1);
      Duality(ts, i, j, hi - 1);
    }
  }

  lemma FiveRelations(ts: seq<Table>, i: nat, j: nat)
    ensures Repeats(ts, i, j, 1, 6) == Repeat(Measure(ts, i, j, 1)) + Repeat(Measure(ts, i, j, 2))
      + Repeat(Measure(ts, i, j, 3)) + Repeat(Measure(ts, i, j, 4)) + Repeat(Measure(ts, i, j, 5))
  {
    assert Repeats(ts, i, j, 1, 2) == Repeat(Measure(ts, i, j, 1));
    assert Repeats(ts, i, j, 1, 3) == Repeats(ts, i, j, 1, 2) + Repeat(Measure(ts, i, j, 2));
    assert Repeats(ts, i, j, 1, 4) == Repeats(ts, i, j, 1, 3) + Repeat(Measure(ts, i, j, 3));
    assert Repeats(ts, i, j, 1, 5) == Repeats(ts, i, j, 1, 4) + Repeat(Measure(ts, i, j, 4));
  }

  lemma PairCostMirror(rule: PairRule, ts: seq<Table>, rounds: nat, i: nat, j: nat)
    requires i != j
    ensures PairCost(rule, ts, rounds, i, j) == PairCost(rule, ts, rounds, j, i)
  {
    match rule
    case R1 =>
      Duality(ts, i, j, 1);
      Duality(ts, i, j, 4);
    case R2 => Duality(ts, i, j, 0);
    case R4 => Duality(ts, i, j, 0);
    case R6 =>
      FiveRelations(ts, i, j);
      FiveRelations(ts, j, i);
      Duality(ts, i, j, 1);
      Duality(ts, i, j, 2);
      Duality(ts, i, j, 3);
      Duality(ts, i, j, 4);
      Duality(ts, i, j, 5);
    case R9 => RepeatsMirror(ts, i, j, 6, 8);
  }

  /** Without two meetings a pair costs nothing under any rule, which is why the
      scan may pass over it. */
  lemma FewMeetingsCostNothing(rule: PairRule, ts: seq<Table>, rounds: nat, i: nat, j: nat)
    requires i != j && Measure(ts, i, j, 0) <= 1
    ensures PairCost(rule, ts, rounds, i, j) == 0
  {
    MeetingsSplit(ts, i, j);
    FiveRelations(ts, i, j);
    assert Repeats(ts, i, j, 6, 7) == Repeat(Measure(ts, i, j, 6));
    assert Repeats(ts, i, j, 6, 8) == Repeats(ts, i, j, 6, 7) + Repeat(Measure(ts, i, j, 7));
  }

  lemma HalfIsEnough(rule: PairRule, ts: seq<Table>, rounds: nat, n: nat)
    requires Entrants(ts) <= UpTo(n)
    ensures 2 * HalfScan(PairCosts(rule, ts, rounds), n) == PairSum(Entrants(ts), PairCosts(rule, ts, rounds))
  {
    var f := PairCosts(rule, ts, rounds);
    forall i, j | i != j
      ensures f(i, j) == f(j, i)
    {
      PairCostMirror(rule, ts, rounds, i, j);
    }
    HalfScanIsHalf(f, n);
    forall i, j | i in UpTo(n) && j in UpTo(n) && i != j && (i !in Entrants(ts) || j !in Entrants(ts))
      ensures f(i, j) == 0
    {
      Absent(ts, i, j, 0);
      FewMeetingsCostNothing(rule, ts, rounds, i, j);
    }
    PairSumPart(Entrants(ts), UpTo(n), f);
  }

  // ---- The scan ---------------------------------------------------------------------

  method CollectPlayers(rounds: seq<seq<Table>>) returns (all: set<nat>)
    ensures all == Players(Tables(rounds))
  {
    all := {};
    for r := 0 to |rounds|
      invariant all == Players(Tables(rounds[..r]))
    {
      ghost var before := Tables(rounds[..r]);
      assert rounds[..r + 1][..r] == rounds[..r];
      assert Tables(rounds[..r + 1]) == before + rounds[r];
      assert before + rounds[r][..0] == before;
      for i := 0 to |rounds[r]|
        invariant all == Players(before + rounds[r][..i])
      {
        PlayersGrow(before + rounds[r][..i], rounds[r][i]);
        assert before + rounds[r][..i + 1] == before + rounds[r][..i] + [rounds[r][i]];
        all := all + set p | p in rounds[r][i];
      }
      assert rounds[r][..|rounds[r]|] == rounds[r];
    }
    assert rounds[..|rounds|] == rounds;
  }

  lemma PlayersGrow(ts: seq<Table>, t: Table)
    ensures Players(ts + [t]) == Players(ts) + set p | p in t
  {
    forall p
      ensures p in Players(ts + [t]) <==> p in Players(ts) || p in t
    {
      if p in t {
        assert t in ts + [t];
      }
      if p in Players(ts) {
        var u :| u in ts && p in u;
        assert u in ts + [t];
      }
    }
  }

  method Greatest(s: set<nat>) returns (n: nat)
    requires s != {}
    ensures n in s && forall p :: p in s ==> p <= n
  {
    n :| n in s;
    var rest := s - {n};
    while rest != {}
      invariant rest <= s && n in s
      invariant forall p :: p in s && p !in rest ==> p <= n
      decreases rest
    {
      var p :| p in rest;
      rest := rest - {p};
      if p > n {
        n := p;
      }
    }
  }

  method JudgePlayer(m: array3<nat>, n: nat, ghost ts: seq<Table>, i: nat) returns (d5: nat, d7: nat)
    requires Holds(m, n, ts) && i <= n
    ensures d5 == SeatCost(true, ts, i) && d7 == SeatCost(false, ts, i)
  {
    d5, d7 := 0, 0;
    var played := m[i, i, 0];
    if played > 0 {
      for seat := 3 to 8
        invariant d7 == Repeats(ts, i, i, 3, seat)
        invariant d5 == if seat == 8 then Repeats(ts, i, i, 7, 8) else 0
      {
        if m[i, i, seat] > 1 {
          d7 := d7 + 1;
          if seat == 7 {
            d5 := d5 + 1;
          }
        }
      }
    } else {
      NoSeatsNoCost(ts, i, 3, 8);
      NoSeatsNoCost(ts, i, 7, 8);
    }
  }

  lemma {:induction false} NoSeatsNoCost(ts: seq<Table>, i: nat, lo: nat, hi: nat)
    requires lo <= hi <= 8 && Measure(ts, i, i, 0) == 0
    ensures Repeats(ts, i, i, lo, hi) == 0
  {
    if lo < hi {
      NoSeatsNoCost(ts, i, lo, hi - 1);
      Idle(ts, i, i, hi - 1);
    }
  }

  method JudgePair(m: array3<nat>, n: nat, ghost ts: seq<Table>, rounds: nat, i: nat, j: nat)
    returns (d1: nat, d2: nat, d4: nat, d6: nat, d9: nat)
    requires Holds(m, n, ts) && i <= n && j <= n && i != j
    ensures d1 == PairCost(R1, ts, rounds, i, j)
    ensures d2 == PairCost(R2, ts, rounds, i, j)
    ensures d4 == PairCost(R4, ts, rounds, i, j)
    ensures d6 == PairCost(R6, ts, rounds, i, j)
    ensures d9 == PairCost(R9, ts, rounds, i, j)
  {
    d1, d2, d4, d6, d9 := 0, 0, 0, 0, 0;
    var oppCount := m[i, j, 0];
    if oppCount > 1 {
      d4 := d4 + 1;
      if oppCount >= rounds {
        d2 := d2 + 1;
      }
      for k := 1 to 6
        invariant d6 == Repeats(ts, i, j, 1, k)
        invariant d1 == (if k > 1 then Repeat(m[i, j, 1]) else 0) + (if k > 4 then Repeat(m[i, j, 4]) else 0)
      {
        if m[i, j, k] > 1 {
          d6 := d6 + 1;
          if k == 1 || k == 4 {
            d1 := d1 + 1;
          }
        }
      }
      for k := 6 to 8
        invariant d9 == Repeats(ts, i, j, 6, k)
      {
        if m[i, j, k] > 1 {
          d9 := d9 + 1;
        }
      }
    } else {
      FewMeetingsCostNothing(R1, ts, rounds, i, j);
      FewMeetingsCostNothing(R6, ts, rounds, i, j);
      FewMeetingsCostNothing(R9, ts, rounds, i, j);
    }
  }

  /** The part of a pair rule's score found once rows below i and the first `below`
      columns of row i are scanned. */
  ghost function Found(rule: PairRule, ts: seq<Table>, rounds: nat, i: nat, below: nat): int
    requires i > 0
  {
    HalfScan(PairCosts(rule, ts, rounds), i - 1) + RowScan(PairCosts(rule, ts, rounds), i, below)
  }

  lemma FoundNext(rule: PairRule, ts: seq<Table>, rounds: nat, i: nat, below: nat)
    requires i > 0
    ensures Found(rule, ts, rounds, i, below + 1)
         == Found(rule, ts, rounds, i, below) + PairCost(rule, ts, rounds, i, below + 1)
    ensures Found(rule, ts, rounds, i + 1, 0) == Found(rule, ts, rounds, i, i - 1)
    ensures Found(rule, ts, rounds, 1, 0) == 0
  {
  }

  method ScanPairs(m: array3<nat>, n: nat, ghost ts: seq<Table>, rounds: nat)
    returns (r1: nat, r2: nat, r4: nat, r6: nat, r9: nat)
    requires Holds(m, n, ts)
    ensures r1 == HalfScan(PairCosts(R1, ts, rounds), n)
    ensures r2 == HalfScan(PairCosts(R2, ts, rounds), n)
    ensures r4 == HalfScan(PairCosts(R4, ts, rounds), n)
    ensures r6 == HalfScan(PairCosts(R6, ts, rounds), n)
    ensures r9 == HalfScan(PairCosts(R9, ts, rounds), n)
  {
    r1, r2, r4, r6, r9 := 0, 0, 0, 0, 0;
    for i := 1 to n + 1
      invariant r1 == Found(R1, ts, rounds, i, 0)
      invariant r2 == Found(R2, ts, rounds, i, 0)
      invariant r4 == Found(R4, ts, rounds, i, 0)
      invariant r6 == Found(R6, ts, rounds, i, 0)
      invariant r9 == Found(R9, ts, rounds, i, 0)
    {
      for j := 1 to i
        invariant r1 == Found(R1, ts, rounds, i, j - 1)
        invariant r2 == Found(R2, ts, rounds, i, j - 1)
        invariant r4 == Found(R4, ts, rounds, i, j - 1)
        invariant r6 == Found(R6, ts, rounds, i, j - 1)
        invariant r9 == Found(R9, ts, rounds, i, j - 1)
      {
        var d1, d2, d4, d6, d9 := JudgePair(m, n, ts, rounds, i, j);
        r1, r2, r4, r6, r9 := r1 + d1, r2 + d2, r4 + d4, r6 + d6, r9 + d9;
        FoundNext(R1, ts, rounds, i, j - 1);
        FoundNext(R2, ts, rounds, i, j - 1);
        FoundNext(R4, ts, rounds, i, j - 1);
        FoundNext(R6, ts, rounds, i, j - 1);
        FoundNext(R9, ts, rounds, i, j - 1);
      }
    }
  }

  method ScanPlayers(m: array3<nat>, n: nat, ghost ts: seq<Table>) returns (r5: nat, r7: nat)
    requires Holds(m, n, ts)
    ensures r5 == SumOver(UpTo(n), SeatCosts(true, ts))
    ensures r7 == SumOver(UpTo(n), SeatCosts(false, ts))
  {
    r5, r7 := 0, 0;
    assert UpTo(0) == {};
    for i := 1 to n + 1
      invariant r5 == SumOver(UpTo(i - 1), SeatCosts(true, ts))
      invariant r7 == SumOver(UpTo(i - 1), SeatCosts(false, ts))
    {
      var d5, d7 := JudgePlayer(m, n, ts, i);
      r5, r7 := r5 + d5, r7 + d7;
      assert UpTo(i) - {i} == UpTo(i - 1);
      SumPick<nat>(UpTo(i), SeatCosts(true, ts), i);
      SumPick<nat>(UpTo(i), SeatCosts(false, ts), i);
    }
  }

  lemma SeatsOfPlayers(fifthOnly: bool, ts: seq<Table>, n: nat)
    requires Entrants(ts) <= UpTo(n)
    ensures SumOver(UpTo(n), SeatCosts(fifthOnly, ts)) == SumOver(Entrants(ts), SeatCosts(fifthOnly, ts))
  {
    forall i | i in UpTo(n) - Entrants(ts)
      ensures SeatCosts(fifthOnly, ts)(i) == 0
    {
      Absent(ts, i, i, 0);
      NoSeatsNoCost(ts, i, if fifthOnly then 7 else 3, 8);
    }
    SumPart(Entrants(ts), UpTo(n), SeatCosts(fifthOnly, ts));
  }

  lemma PlayersBelow(ts: seq<Table>, n: nat)
    requires forall p :: p in Players(ts) ==> p <= n
    ensures forall t :: t in ts ==> Below(t, n)
    ensures Entrants(ts) <= UpTo(n)
  {
    forall t, seat | t in ts && 0 <= seat < |t|
      ensures t[seat] <= n
    {
      assert t[seat] in t;
      assert t[seat] in Players(ts);
    }
  }

  /** Without any player there is no greatest number, and no score. */
  method ComputeScore(rounds: seq<seq<Table>>) returns (score: Option<Score>)
    ensures score.None? <==> Players(Tables(rounds)) == {}
    ensures score.Some? ==> IsScore(score.value, Tables(rounds), |rounds|)
  {
    var all := CollectPlayers(rounds);
    if all == {} {
      return None;
    }
    var n := Greatest(all);
    ghost var ts := Tables(rounds);
    PlayersBelow(ts, n);
    var m := CountRounds(rounds, n);
    var r5, r7 := ScanPlayers(m, n, ts);
    var r1, r2, r4, r6, r9 := ScanPairs(m, n, ts, |rounds|);
    HalfIsEnough(R1, ts, |rounds|, n);
    HalfIsEnough(R2, ts, |rounds|, n);
    HalfIsEnough(R4, ts, |rounds|, n);
    HalfIsEnough(R6, ts, |rounds|, n);
    HalfIsEnough(R9, ts, |rounds|, n);
    SeatsOfPlayers(true, ts, n);
    SeatsOfPlayers(false, ts, n);
    score := Some(Score(r1, r2, r4, r5, r6, r7, r9));
  }
}

/** What the count matrix and the seven scores count, in words: who sat next to, across from, and
    in which seat, how often. */
module SeatingCounts {
  import opened SeatingLaws
  import opened SeatingMatrix
  import opened SeatingScore
  import opened Sums

  // ---- Counting sittings ------------------------------------------------------------

  /** The sittings, seat by seat at the tables of four and five, that satisfy a description. */
  ghost function Sittings(ts: seq<Table>, sits: (Table, nat) -> bool): set<(nat, nat)> {
    set n: nat, s: nat | n < |ts| && s < |ts[n]| && |ts[n]| in {4, 5} && sits(ts[n], s) :: (n, s)
  }

  /** i sits with j `d` seats further on. */
  ghost function Ahead(i: nat, j: nat, d: nat): (Table, nat) -> bool {
    (t: Table, s: nat) => s < |t| && t[s] == i && t[(s + d) % |t|] == j
  }

  /** i sits with j `d` seats before. */
  ghost function Behind(i: nat, j: nat, d: nat): (Table, nat) -> bool {
    (t: Table, s: nat) => s < |t| && d <= |t| && t[s] == i && t[(s + |t| - d) % |t|] == j
  }

  ghost function AtTableOf(size: nat, sits: (Table, nat) -> bool): (Table, nat) -> bool {
    (t: Table, s: nat) => |t| == size && sits(t, s)
  }

  ghost function InSeat(i: nat, seat: nat): (Table, nat) -> bool {
    (t: Table, s: nat) => s < |t| && t[s] == i && s == seat
  }

  ghost function Seats(t: Table, sits: (Table, nat) -> bool, upTo: nat): set<nat> {
    set s: nat | s < upTo && sits(t, s)
  }

  ghost function At(n: nat, seats: set<nat>): set<(nat, nat)> {
    set s | s in seats :: (n, s)
  }

  lemma {:induction false} AsManyAt(n: nat, seats: set<nat>)
    ensures |At(n, seats)| == |seats|
    decreases seats
  {
    if seats != {} {
      var s :| s in seats;
      AsManyAt(n, seats - {s});
      assert At(n, seats) == At(n, seats - {s}) + {(n, s)};
    }
  }

  lemma SittingsGrow(ts: seq<Table>, sits: (Table, nat) -> bool)
    requires ts != []
    ensures var last := ts[|ts| - 1];
            |Sittings(ts, sits)|
              == |Sittings(ts[..|ts| - 1], sits)| + if Scored(last) then |Seats(last, sits, |last|)| else 0
  {
    var n := |ts| - 1;
    var init, last := ts[..n], ts[n];
    var more := if Scored(last) then Seats(last, sits, |last|) else {};
    AsManyAt(n, more);
    assert Sittings(ts, sits) == Sittings(init, sits) + At(n, more);
    assert Sittings(init, sits) !! At(n, more);
  }

  lemma {:induction false} SeatsCounted(t: Table, sits: (Table, nat) -> bool, seats: nat, i: nat, j: nat, k: nat)
    requires Scored(t) && seats <= |t| && k < 8
    requires forall s: nat :: s < |t| ==> SeatShare(t, s, i, j, k) == if sits(t, s) then 1 else 0
    ensures SeatsShare(t, seats, i, j, k) == |Seats(t, sits, seats)|
  {
    if seats > 0 {
      var s := seats - 1;
      SeatsCounted(t, sits, s, i, j, k);
      assert Seats(t, sits, seats) == Seats(t, sits, s) + if sits(t, s) then {s} else {};
    } else {
      assert Seats(t, sits, 0) == {};
    }
  }

  lemma {:induction false} MeasureCounts(ts: seq<Table>, sits: (Table, nat) -> bool, i: nat, j: nat, k: nat)
    requires k < 8
    requires forall t, s: nat :: t in ts && Scored(t) && s < |t| ==>
               SeatShare(t, s, i, j, k) == if sits(t, s) then 1 else 0
    ensures Measure(ts, i, j, k) == |Sittings(ts, sits)|
  {
    if ts == [] {
      assert Sittings(ts, sits) == {};
    } else {
      var t := ts[|ts| - 1];
      MeasureCounts(ts[..|ts| - 1], sits, i, j, k);
      SittingsGrow(ts, sits);
      if Scored(t) {
        SeatsCounted(t, sits, |t|, i, j, k);
      }
    }
  }

  // ---- The columns ------------------------------------------------------------------

  /** What one seat adds, relation by relation. */
  lemma SeatTerms(t: Table, s: nat, i: nat, j: nat, k: nat)
    requires Scored(t) && s < |t| && i != j && k < 8
    ensures |t| == 4 ==>
              SeatShare(t, s, i, j, k)
              == Met(t, s, (s + 1) % 4, i, j, Weight(4, 1, k)) + Met(t, s, (s + 2) % 4, i, j, Weight(4, 2, k))
               + Met(t, s, (s + 3) % 4, i, j, Weight(4, 3, k))
    ensures |t| == 5 ==>
              SeatShare(t, s, i, j, k)
              == Met(t, s, (s + 1) % 5, i, j, Weight(5, 1, k)) + Met(t, s, (s + 2) % 5, i, j, Weight(5, 2, k))
               + Met(t, s, (s + 3) % 5, i, j, Weight(5, 3, k)) + Met(t, s, (s + 4) % 5, i, j, Weight(5, 4, k))
  {
    ShareIsRow(t, s, |t| - 1, i, j, k);
    RowTerms(Term(t, i, j, k), s);
  }

  /** The description of the seat each relation column counts. */
  ghost function Relation(k: nat, i: nat, j: nat): (Table, nat) -> bool
    requires 1 <= k <= 5
  {
    match k
    case 1 => Ahead(i, j, 1)
    case 2 => AtTableOf(5, Ahead(i, j, 2))
    case 3 => AtTableOf(5, Behind(i, j, 2))
    case 4 => Behind(i, j, 1)
    case _ => AtTableOf(4, Ahead(i, j, 2))
  }

  /** Going round a table of four: the prey, the one opposite, the predator. */
  lemma WeightsAtFour(k: nat)
    requires 1 <= k <= 5
    ensures Weight(4, 1, k) == (if k == 1 then 1 else 0) && Weight(4, 2, k) == (if k == 5 then 1 else 0)
    ensures Weight(4, 3, k) == if k == 4 then 1 else 0
  {
  }

  /** Going round a table of five: the prey, the grand-prey, the grand-predator, the predator. */
  lemma WeightsAtFive(k: nat)
    requires 1 <= k <= 5
    ensures Weight(5, 1, k) == (if k == 1 then 1 else 0) && Weight(5, 2, k) == (if k == 2 then 1 else 0)
    ensures Weight(5, 3, k) == (if k == 3 then 1 else 0) && Weight(5, 4, k) == (if k == 4 then 1 else 0)
  {
  }

  lemma SeatAtFour(t: Table, s: nat, i: nat, j: nat, k: nat)
    requires |t| == 4 && s < 4 && i != j && 1 <= k <= 5
    ensures SeatShare(t, s, i, j, k) == if Relation(k, i, j)(t, s) then 1 else 0
  {
    SeatTerms(t, s, i, j, k);
    WeightsAtFour(k);
    assert (s + |t| - 1) % |t| == (s + 3) % 4;
  }

  lemma SeatAtFive(t: Table, s: nat, i: nat, j: nat, k: nat)
    requires |t| == 5 && s < 5 && i != j && 1 <= k <= 5
    ensures SeatShare(t, s, i, j, k) == if Relation(k, i, j)(t, s) then 1 else 0
  {
    SeatTerms(t, s, i, j, k);
    WeightsAtFive(k);
    assert (s + |t| - 1) % |t| == (s + 4) % 5 && (s + |t| - 2) % |t| == (s + 3) % 5;
  }

  lemma SeatCounted(t: Table, s: nat, i: nat, j: nat, k: nat)
    requires Scored(t) && s < |t| && i != j && 1 <= k <= 5
    ensures SeatShare(t, s, i, j, k) == if Relation(k, i, j)(t, s) then 1 else 0
  {
    if |t| == 4 {
      SeatAtFour(t, s, i, j, k);
    } else {
      SeatAtFive(t, s, i, j, k);
    }
  }

  lemma RelationCounted(ts: seq<Table>, i: nat, j: nat, k: nat)
    requires i != j && 1 <= k <= 5
    ensures Measure(ts, i, j, k) == |Sittings(ts, Relation(k, i, j))|
  {
    forall t, s: nat | t in ts && Scored(t) && s < |t|
      ensures SeatShare(t, s, i, j, k) == if Relation(k, i, j)(t, s) then 1 else 0
    {
      SeatCounted(t, s, i, j, k);
    }
    MeasureCounts(ts, Relation(k, i, j), i, j, k);
  }

  lemma {:induction false} ShareOfGroups(t: Table, s: nat, rels: nat, i: nat, j: nat)
    requires Scored(t) && s < |t| && rels < |t|
    ensures OpponentShare(t, s, rels, i, j, 6)
         == OpponentShare(t, s, rels, i, j, 1) + OpponentShare(t, s, rels, i, j, 4)
  {
    if rels > 0 {
      ShareOfGroups(t, s, rels - 1, i, j);
      assert |t| == 4 ==> rels == 1 || rels == 2 || rels == 3;
      assert |t| == 5 ==> rels == 1 || rels == 2 || rels == 3 || rels == 4;
    }
  }

  lemma {:induction false} SeatsOfGroups(t: Table, seats: nat, i: nat, j: nat)
    requires Scored(t) && seats <= |t| && i != j
    ensures SeatsShare(t, seats, i, j, 6) == SeatsShare(t, seats, i, j, 1) + SeatsShare(t, seats, i, j, 4)
  {
    if seats > 0 {
      SeatsOfGroups(t, seats - 1, i, j);
      ShareOfGroups(t, seats - 1, |t| - 1, i, j);
    }
  }

  lemma {:induction false} NeighboursAreTwo(ts: seq<Table>, i: nat, j: nat)
    requires i != j
    ensures Measure(ts, i, j, 6) == Measure(ts, i, j, 1) + Measure(ts, i, j, 4)
  {
    if ts != [] {
      NeighboursAreTwo(ts[..|ts| - 1], i, j);
      var t := ts[|ts| - 1];
      if Scored(t) {
        SeatsOfGroups(t, |t|, i, j);
      }
    }
  }

  /** What the matrix counts of two players: column 1 the sittings of i with j in the next seat,
      his prey, and column 4 with j in the seat before, his predator; at tables of five, column 2
      with j two seats on and column 3 with j two seats before; column 5 with j opposite at a
      table of four; column 6 those with j beside him, and column 7 the others. */
  lemma ColumnsCount(ts: seq<Table>, i: nat, j: nat)
    requires i != j
    ensures Measure(ts, i, j, 1) == |Sittings(ts, Ahead(i, j, 1))|
    ensures Measure(ts, i, j, 2) == |Sittings(ts, AtTableOf(5, Ahead(i, j, 2)))|
    ensures Measure(ts, i, j, 3) == |Sittings(ts, AtTableOf(5, Behind(i, j, 2)))|
    ensures Measure(ts, i, j, 4) == |Sittings(ts, Behind(i, j, 1))|
    ensures Measure(ts, i, j, 5) == |Sittings(ts, AtTableOf(4, Ahead(i, j, 2)))|
    ensures Measure(ts, i, j, 6) == |Sittings(ts, Ahead(i, j, 1))| + |Sittings(ts, Behind(i, j, 1))|
    ensures Measure(ts, i, j, 7) == |Sittings(ts, AtTableOf(5, Ahead(i, j, 2)))|
              + |Sittings(ts, AtTableOf(5, Behind(i, j, 2)))| + |Sittings(ts, AtTableOf(4, Ahead(i, j, 2)))|
  {
    RelationCounted(ts, i, j, 1);
    RelationCounted(ts, i, j, 2);
    RelationCounted(ts, i, j, 3);
    RelationCounted(ts, i, j, 4);
    RelationCounted(ts, i, j, 5);
    NeighboursAreTwo(ts, i, j);
    MeetingsSplit(ts, i, j);
  }

  lemma OwnSeatCounted(t: Table, s: nat, i: nat, seat: nat)
    requires Scored(t) && Proper(t) && s < |t| && seat < 5
    ensures SeatShare(t, s, i, i, 3 + seat) == if InSeat(i, seat)(t, s) then 1 else 0
  {
    NeverOwnOpponent(t, s, |t| - 1, i, 3 + seat);
  }

  /** A player's own columns 3 to 7 count how often he sat in each of the five seats. */
  lemma SeatsCount(ts: seq<Table>, i: nat, seat: nat)
    requires AllProper(ts) && seat < 5
    ensures Measure(ts, i, i, 3 + seat) == |Sittings(ts, InSeat(i, seat))|
  {
    forall t, s: nat | t in ts && Scored(t) && s < |t|
      ensures SeatShare(t, s, i, i, 3 + seat) == if InSeat(i, seat)(t, s) then 1 else 0
    {
      OwnSeatCounted(t, s, i, seat);
    }
    MeasureCounts(ts, InSeat(i, seat), i, i, 3 + seat);
  }

  // ---- The scores -------------------------------------------------------------------

  /** The ordered pairs of different players of whom something holds. */
  ghost function Pairs(all: set<nat>, p: (nat, nat) -> bool): set<(nat, nat)> {
    set i, j | i in all && j in all && i != j && p(i, j) :: (i, j)
  }

  ghost function PairCount(p: (nat, nat) -> bool): (nat, nat) -> int {
    (i: nat, j: nat) => if p(i, j) then 1 else 0
  }

  ghost function Row(all: set<nat>, p: (nat, nat) -> bool, i: nat): set<nat> {
    set j | j in all && i != j && p(i, j)
  }

  /** The pairs whose first member is one of some players. */
  ghost function PairsFrom(part: set<nat>, all: set<nat>, p: (nat, nat) -> bool): set<(nat, nat)> {
    set i, j | i in part && j in Row(all, p, i) :: (i, j)
  }

  lemma RowCounted(all: set<nat>, p: (nat, nat) -> bool, i: nat)
    ensures PartnerSum(all, PairCount(p))(i) == |Row(all, p, i)|
  {
    SumPart(Row(all, p, i), all - {i}, Slice(PairCount(p), i));
    SumOnes(Row(all, p, i), Slice(PairCount(p), i));
  }

  /** Taking one first member away takes its pairs away. */
  lemma RowAway(part: set<nat>, i: nat, seats: nat -> set<nat>, pairs: set<(nat, nat)>, rest: set<(nat, nat)>)
    requires i in part
    requires forall x :: x in pairs <==> x.0 in part && x.1 in seats(x.0)
    requires forall x :: x in rest <==> x.0 in part - {i} && x.1 in seats(x.0)
    ensures |pairs| == |rest| + |seats(i)|
  {
    AsManyAt(i, seats(i));
    assert pairs == rest + At(i, seats(i));
    assert rest !! At(i, seats(i));
  }

  lemma PairsAway(part: set<nat>, all: set<nat>, p: (nat, nat) -> bool, i: nat)
    requires i in part
    ensures |PairsFrom(part, all, p)| == |PairsFrom(part - {i}, all, p)| + |Row(all, p, i)|
  {
    RowAway(part, i, (a: nat) => Row(all, p, a), PairsFrom(part, all, p), PairsFrom(part - {i}, all, p));
  }

  lemma {:induction false} RowsAddUp(part: set<nat>, all: set<nat>, p: (nat, nat) -> bool)
    requires part <= all
    ensures SumOver(part, PartnerSum(all, PairCount(p))) == |PairsFrom(part, all, p)|
    decreases part
  {
    if part == {} {
      assert PairsFrom(part, all, p) == {};
    } else {
      var i :| i in part;
      RowsAddUp(part - {i}, all, p);
      SumPick(part, PartnerSum(all, PairCount(p)), i);
      RowCounted(all, p, i);
      PairsAway(part, all, p, i);
    }
  }

  lemma PairsCounted(all: set<nat>, p: (nat, nat) -> bool)
    ensures PairSum(all, PairCount(p)) == |Pairs(all, p)|
  {
    RowsAddUp(all, all, p);
    assert PairsFrom(all, all, p) == Pairs(all, p);
  }

  lemma PairSumAdds(all: set<nat>, f: (nat, nat) -> int, g: (nat, nat) -> int, h: (nat, nat) -> int)
    requires forall i, j :: i in all && j in all && i != j ==> h(i, j) == f(i, j) + g(i, j)
    ensures PairSum(all, h) == PairSum(all, f) + PairSum(all, g)
  {
    forall i | i in all
      ensures PartnerSum(all, h)(i) == PartnerSum(all, f)(i) + PartnerSum(all, g)(i)
    {
      SumAdd(all - {i}, Slice(f, i), Slice(g, i), Slice(h, i));
    }
    SumAdd(all, PartnerSum(all, f), PartnerSum(all, g), PartnerSum(all, h));
  }

  lemma PairSumAgrees(all: set<nat>, f: (nat, nat) -> int, g: (nat, nat) -> int)
    requires forall i, j :: i in all && j in all && i != j ==> f(i, j) == g(i, j)
    ensures PairSum(all, f) == PairSum(all, g)
  {
    PairSumAtMost(all, f, g);
    PairSumAtMost(all, g, f);
  }

  /** As many pairs stand in a relation as in its converse. */
  lemma ConversePairs(all: set<nat>, p: (nat, nat) -> bool, q: (nat, nat) -> bool)
    requires forall i, j :: i in all && j in all && i != j ==> (p(i, j) <==> q(j, i))
    ensures |Pairs(all, p)| == |Pairs(all, q)|
  {
    var swap := (x: (nat, nat)) => (x.1, x.0);
    var one := (x: (nat, nat)) => 1;
    forall x | x in Pairs(all, q)
      ensures exists y :: y in Pairs(all, p) && swap(y) == x
    {
      assert swap((x.1, x.0)) == x && (x.1, x.0) in Pairs(all, p);
    }
    SumRename(Pairs(all, p), one, swap, Pairs(all, q), one);
    SumOnes(Pairs(all, p), one);
    SumOnes(Pairs(all, q), one);
  }

  // What a pair may have done twice: i preyed on j, was hunted by j, the same two seats away at a
  // table of five, sat opposite j, beside j, apart from j, or met j at all.

  ghost function PreyedTwice(ts: seq<Table>): (nat, nat) -> bool {
    (i: nat, j: nat) => |Sittings(ts, Ahead(i, j, 1))| >= 2
  }

  ghost function HuntedTwice(ts: seq<Table>): (nat, nat) -> bool {
    (i: nat, j: nat) => |Sittings(ts, Behind(i, j, 1))| >= 2
  }

  ghost function GrandPreyedTwice(ts: seq<Table>): (nat, nat) -> bool {
    (i: nat, j: nat) => |Sittings(ts, AtTableOf(5, Ahead(i, j, 2)))| >= 2
  }

  ghost function GrandHuntedTwice(ts: seq<Table>): (nat, nat) -> bool {
    (i: nat, j: nat) => |Sittings(ts, AtTableOf(5, Behind(i, j, 2)))| >= 2
  }

  ghost function CrossedTwice(ts: seq<Table>): (nat, nat) -> bool {
    (i: nat, j: nat) => |Sittings(ts, AtTableOf(4, Ahead(i, j, 2)))| >= 2
  }

  ghost function BesideTwice(ts: seq<Table>): (nat, nat) -> bool {
    (i: nat, j: nat) => |Sittings(ts, Ahead(i, j, 1))| + |Sittings(ts, Behind(i, j, 1))| >= 2
  }

  ghost function ApartTwice(ts: seq<Table>): (nat, nat) -> bool {
    (i: nat, j: nat) =>
      |Sittings(ts, AtTableOf(5, Ahead(i, j, 2)))| + |Sittings(ts, AtTableOf(5, Behind(i, j, 2)))|
      + |Sittings(ts, AtTableOf(4, Ahead(i, j, 2)))| >= 2
  }

  ghost function MetOften(ts: seq<Table>, times: nat): (nat, nat) -> bool {
    (i: nat, j: nat) => Together(ts, i, j) >= times
  }

  lemma SeenFromBothSides(ts: seq<Table>, all: set<nat>)
    ensures |Pairs(all, HuntedTwice(ts))| == |Pairs(all, PreyedTwice(ts))|
    ensures |Pairs(all, GrandHuntedTwice(ts))| == |Pairs(all, GrandPreyedTwice(ts))|
  {
    forall i, j | i != j
      ensures HuntedTwice(ts)(i, j) <==> PreyedTwice(ts)(j, i)
      ensures GrandHuntedTwice(ts)(i, j) <==> GrandPreyedTwice(ts)(j, i)
    {
      Duality(ts, i, j, 4);
      Duality(ts, i, j, 3);
      ColumnsCount(ts, i, j);
      ColumnsCount(ts, j, i);
    }
    ConversePairs(all, HuntedTwice(ts), PreyedTwice(ts));
    ConversePairs(all, GrandHuntedTwice(ts), GrandPreyedTwice(ts));
  }

  lemma RepeatedPrey(ts: seq<Table>, rounds: nat, all: set<nat>)
    ensures PairSum(all, PairCosts(R1, ts, rounds)) == 2 * |Pairs(all, PreyedTwice(ts))|
  {
    forall i, j | i in all && j in all && i != j
      ensures PairCosts(R1, ts, rounds)(i, j) == PairCount(PreyedTwice(ts))(i, j) + PairCount(HuntedTwice(ts))(i, j)
    {
      ColumnsCount(ts, i, j);
    }
    PairSumAdds(all, PairCount(PreyedTwice(ts)), PairCount(HuntedTwice(ts)), PairCosts(R1, ts, rounds));
    PairsCounted(all, PreyedTwice(ts));
    PairsCounted(all, HuntedTwice(ts));
    SeenFromBothSides(ts, all);
  }

  lemma RepeatedMeetings(ts: seq<Table>, rounds: nat, all: set<nat>)
    requires AllProper(ts)
    ensures PairSum(all, PairCosts(R2, ts, rounds)) == |Pairs(all, MetOften(ts, if rounds > 2 then rounds else 2))|
    ensures PairSum(all, PairCosts(R4, ts, rounds)) == |Pairs(all, MetOften(ts, 2))|
  {
    var always, twice := MetOften(ts, if rounds > 2 then rounds else 2), MetOften(ts, 2);
    forall i, j
      ensures PairCosts(R2, ts, rounds)(i, j) == PairCount(always)(i, j)
      ensures PairCosts(R4, ts, rounds)(i, j) == PairCount(twice)(i, j)
    {
      CountsAreSharedTables(ts, i, j);
    }
    PairSumAgrees(all, PairCosts(R2, ts, rounds), PairCount(always));
    PairSumAgrees(all, PairCosts(R4, ts, rounds), PairCount(twice));
    PairsCounted(all, always);
    PairsCounted(all, twice);
  }

  lemma RelationCosts(ts: seq<Table>, rounds: nat, i: nat, j: nat)
    requires i != j
    ensures PairCost(R6, ts, rounds, i, j)
         == PairCount(PreyedTwice(ts))(i, j) + PairCount(GrandPreyedTwice(ts))(i, j)
          + PairCount(GrandHuntedTwice(ts))(i, j) + PairCount(HuntedTwice(ts))(i, j)
          + PairCount(CrossedTwice(ts))(i, j)
  {
    FiveRelations(ts, i, j);
    ColumnsCount(ts, i, j);
  }

  ghost function Plus(f: (nat, nat) -> int, g: (nat, nat) -> int): (nat, nat) -> int {
    (i: nat, j: nat) => f(i, j) + g(i, j)
  }

  lemma RepeatedRelations(ts: seq<Table>, rounds: nat, all: set<nat>)
    ensures PairSum(all, PairCosts(R6, ts, rounds))
         == 2 * |Pairs(all, PreyedTwice(ts))| + 2 * |Pairs(all, GrandPreyedTwice(ts))| + |Pairs(all, CrossedTwice(ts))|
  {
    var a, b, c := PairCount(PreyedTwice(ts)), PairCount(GrandPreyedTwice(ts)), PairCount(GrandHuntedTwice(ts));
    var d, e := PairCount(HuntedTwice(ts)), PairCount(CrossedTwice(ts));
    var ab, cd := Plus(a, b), Plus(c, d);
    var abcd := Plus(ab, cd);
    forall i, j | i in all && j in all && i != j
      ensures PairCosts(R6, ts, rounds)(i, j) == abcd(i, j) + e(i, j)
    {
      RelationCosts(ts, rounds, i, j);
    }
    PairSumAdds(all, a, b, ab);
    PairSumAdds(all, c, d, cd);
    PairSumAdds(all, ab, cd, abcd);
    PairSumAdds(all, abcd, e, PairCosts(R6, ts, rounds));
    PairsCounted(all, PreyedTwice(ts));
    PairsCounted(all, GrandPreyedTwice(ts));
    PairsCounted(all, GrandHuntedTwice(ts));
    PairsCounted(all, HuntedTwice(ts));
    PairsCounted(all, CrossedTwice(ts));
    SeenFromBothSides(ts, all);
  }

  lemma RepeatedGroups(ts: seq<Table>, rounds: nat, all: set<nat>)
    ensures PairSum(all, PairCosts(R9, ts, rounds)) == |Pairs(all, BesideTwice(ts))| + |Pairs(all, ApartTwice(ts))|
  {
    forall i, j | i in all && j in all && i != j
      ensures PairCosts(R9, ts, rounds)(i, j) == PairCount(BesideTwice(ts))(i, j) + PairCount(ApartTwice(ts))(i, j)
    {
      ColumnsCount(ts, i, j);
      assert Repeats(ts, i, j, 6, 7) == Repeat(Measure(ts, i, j, 6));
    }
    PairSumAdds(all, PairCount(BesideTwice(ts)), PairCount(ApartTwice(ts)), PairCosts(R9, ts, rounds));
    PairsCounted(all, BesideTwice(ts));
    PairsCounted(all, ApartTwice(ts));
  }

  ghost function SeatsTwice(ts: seq<Table>, i: nat): set<nat> {
    set seat: nat | seat < 5 && |Sittings(ts, InSeat(i, seat))| >= 2
  }

  lemma SeatCostsCounted(ts: seq<Table>, i: nat)
    requires AllProper(ts)
    ensures SeatCost(false, ts, i) == |SeatsTwice(ts, i)|
    ensures SeatCost(true, ts, i) == if |Sittings(ts, InSeat(i, 4))| >= 2 then 1 else 0
  {
    SeatsUpTo(ts, i, 5);
    assert SeatsTwice(ts, i) == UpTo(SeatsTwice(ts, i), 5);
    SeatsCount(ts, i, 4);
    assert Repeats(ts, i, i, 7, 8) == Repeat(Measure(ts, i, i, 7));
  }

  function UpTo(seats: set<nat>, n: nat): set<nat> {
    set seat | seat in seats && seat < n
  }

  lemma OneSeatMore(seats: set<nat>, n: nat)
    ensures |UpTo(seats, n + 1)| == |UpTo(seats, n)| + if n in seats then 1 else 0
  {
    assert UpTo(seats, n + 1) == UpTo(seats, n) + if n in seats then {n} else {};
  }

  lemma {:induction false} SeatsUpTo(ts: seq<Table>, i: nat, n: nat)
    requires AllProper(ts) && n <= 5
    ensures Repeats(ts, i, i, 3, 3 + n) == |UpTo(SeatsTwice(ts, i), n)|
  {
    if n == 0 {
      assert UpTo(SeatsTwice(ts, i), 0) == {};
    } else {
      SeatsUpTo(ts, i, n - 1);
      OneSeatMore(SeatsTwice(ts, i), n - 1);
      SeatTwiceCosts(ts, i, n - 1);
    }
  }

  lemma SeatTwiceCosts(ts: seq<Table>, i: nat, seat: nat)
    requires AllProper(ts) && seat < 5
    ensures Repeats(ts, i, i, 3, 3 + seat + 1)
         == Repeats(ts, i, i, 3, 3 + seat) + if seat in SeatsTwice(ts, i) then 1 else 0
  {
    SeatsCount(ts, i, seat);
  }

  /** The players who sat in one seat twice, with that seat. */
  ghost function RepeatedSeats(ts: seq<Table>, all: set<nat>): set<(nat, nat)> {
    set i, seat | i in all && seat in SeatsTwice(ts, i) :: (i, seat)
  }

  ghost function FifthTwice(ts: seq<Table>, all: set<nat>): set<nat> {
    set i | i in all && |Sittings(ts, InSeat(i, 4))| >= 2
  }

  lemma {:induction false} RepeatedSeatsCounted(ts: seq<Table>, all: set<nat>)
    requires AllProper(ts)
    ensures SumOver(all, SeatCosts(false, ts)) == |RepeatedSeats(ts, all)|
    decreases all
  {
    if all == {} {
      assert RepeatedSeats(ts, all) == {};
    } else {
      var i :| i in all;
      RepeatedSeatsCounted(ts, all - {i});
      SumPick(all, SeatCosts(false, ts), i);
      SeatCostsCounted(ts, i);
      RowAway(all, i, (a: nat) => SeatsTwice(ts, a), RepeatedSeats(ts, all), RepeatedSeats(ts, all - {i}));
    }
  }

  lemma FifthSeatsCounted(ts: seq<Table>, all: set<nat>)
    requires AllProper(ts)
    ensures SumOver(all, SeatCosts(true, ts)) == |FifthTwice(ts, all)|
  {
    forall i
      ensures SeatCosts(true, ts)(i) == if |Sittings(ts, InSeat(i, 4))| >= 2 then 1 else 0
    {
      SeatCostsCounted(ts, i);
    }
    SumPart(FifthTwice(ts, all), all, SeatCosts(true, ts));
    SumOnes(FifthTwice(ts, all), SeatCosts(true, ts));
  }

  lemma PairScoresInWords(ts: seq<Table>, rounds: nat, s: Score, all: set<nat>)
    requires AllProper(ts) && IsScoreOver(s, all, ts, rounds)
    ensures s.r1 == |Pairs(all, PreyedTwice(ts))|
    ensures 2 * s.r2 == |Pairs(all, MetOften(ts, if rounds > 2 then rounds else 2))|
    ensures 2 * s.r4 == |Pairs(all, MetOften(ts, 2))|
  {
    RepeatedPrey(ts, rounds, all);
    RepeatedMeetings(ts, rounds, all);
  }

  lemma GroupScoresInWords(ts: seq<Table>, rounds: nat, s: Score, all: set<nat>)
    requires IsScoreOver(s, all, ts, rounds)
    ensures 2 * s.r6 == 2 * |Pairs(all, PreyedTwice(ts))| + 2 * |Pairs(all, GrandPreyedTwice(ts))|
                        + |Pairs(all, CrossedTwice(ts))|
    ensures 2 * s.r9 == |Pairs(all, BesideTwice(ts))| + |Pairs(all, ApartTwice(ts))|
  {
    RepeatedRelations(ts, rounds, all);
    RepeatedGroups(ts, rounds, all);
  }

  lemma SeatScoresInWords(ts: seq<Table>, rounds: nat, s: Score, all: set<nat>)
    requires AllProper(ts) && IsScoreOver(s, all, ts, rounds)
    ensures s.r5 == |FifthTwice(ts, all)| && s.r7 == |RepeatedSeats(ts, all)|
  {
    FifthSeatsCounted(ts, all);
    RepeatedSeatsCounted(ts, all);
  }

  /** The seven scores in words, for tables nobody sits at twice. R1 is the number of pairs of
      whom the first preyed on the second twice; R2 and R4, doubled, are the pairs who met in
      every round, twice at least, and the pairs who met twice; R5 the players who sat in the
      fifth seat twice, and R7 the players and seats so repeated; R6 adds to R1 the pairs of
      whom the first was twice two seats before the second at a table of five, and those twice
      opposite at a table of four; R9, doubled, is the pairs twice side by side and the pairs
      twice apart. */
  lemma ScoresInWords(ts: seq<Table>, rounds: nat, s: Score)
    requires AllProper(ts) && IsScore(s, ts, rounds)
    ensures var all := Players(ts) - {0};
            && s.r1 == |Pairs(all, PreyedTwice(ts))|
            && 2 * s.r2 == |Pairs(all, MetOften(ts, if rounds > 2 then rounds else 2))|
            && 2 * s.r4 == |Pairs(all, MetOften(ts, 2))|
            && s.r5 == |FifthTwice(ts, all)|
            && 2 * s.r6 == 2 * s.r1 + 2 * |Pairs(all, GrandPreyedTwice(ts))| + |Pairs(all, CrossedTwice(ts))|
            && s.r7 == |RepeatedSeats(ts, all)|
            && 2 * s.r9 == |Pairs(all, BesideTwice(ts))| + |Pairs(all, ApartTwice(ts))|
  {
    var all := Entrants(ts);
    PairScoresInWords(ts, rounds, s, all);
    GroupScoresInWords(ts, rounds, s, all);
    SeatScoresInWords(ts, rounds, s, all);
  }
}

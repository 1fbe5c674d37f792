/** engine/compare_seating.py: the count matrix behind the seating score, as a
    function of the tables, as the nested loops that build it in place, and the
    laws its rows obey. */
module SeatingMatrix {
  type Table = seq<nat>

  const POSITIONS_4: seq<seq<nat>> := [
    [1, 4, 1, 1, 0, 0, 0, 0],
    [1, 4, 2, 0, 1, 0, 0, 0],
    [1, 4, 3, 0, 0, 1, 0, 0],
    [1, 4, 4, 0, 0, 0, 1, 0]]
  const POSITIONS_5: seq<seq<nat>> := [
    [1, 5, 1, 1, 0, 0, 0, 0],
    [1, 5, 2, 0, 1, 0, 0, 0],
    [1, 5, 3, 0, 0, 1, 0, 0],
    [1, 5, 4, 0, 0, 0, 1, 0],
    [1, 5, 4, 0, 0, 0, 0, 1]]
  const OPPONENTS_4: seq<seq<nat>> := [
    [1, 1, 0, 0, 0, 0, 1, 0],
    [1, 0, 0, 0, 0, 1, 0, 1],
    [1, 0, 0, 0, 1, 0, 1, 0]]
  const OPPONENTS_5: seq<seq<nat>> := [
    [1, 1, 0, 0, 0, 0, 1, 0],
    [1, 0, 1, 0, 0, 0, 0, 1],
    [1, 0, 0, 1, 0, 0, 0, 1],
    [1, 0, 0, 0, 1, 0, 1, 0]]

  predicate Scored(t: Table) {
    |t| == 4 || |t| == 5
  }

  function Position(size: nat, seat: nat): (row: seq<nat>)
    requires (size == 4 || size == 5) && seat < size
    ensures |row| == 8
  {
    if size == 4 then POSITIONS_4[seat] else POSITIONS_5[seat]
  }

  function Opponent(size: nat, rel: nat): (row: seq<nat>)
    requires (size == 4 || size == 5) && rel < size - 1
    ensures |row| == 8
  {
    if size == 4 then OPPONENTS_4[rel] else OPPONENTS_5[rel]
  }

  // ---- The matrix as a function of the tables ---------------------------------------

  /** What the player at `seat` adds to entry (i, j, k) through the first `rels`
      relations: one for each opponent met going round the table. */
  function OpponentShare(t: Table, seat: nat, rels: nat, i: nat, j: nat, k: nat): nat
    requires Scored(t) && seat < |t| && rels < |t| && k < 8
  {
    if rels == 0 then 0
    else
      OpponentShare(t, seat, rels - 1, i, j, k)
      + (if t[seat] == i && t[(seat + rels) % |t|] == j then Opponent(|t|, rels - 1)[k] else 0)
  }

  function SeatShare(t: Table, seat: nat, i: nat, j: nat, k: nat): nat
    requires Scored(t) && seat < |t| && k < 8
  {
    (if t[seat] == i && i == j then Position(|t|, seat)[k] else 0)
    + OpponentShare(t, seat, |t| - 1, i, j, k)
  }

  function SeatsShare(t: Table, seats: nat, i: nat, j: nat, k: nat): nat
    requires Scored(t) && seats <= |t| && k < 8
  {
    if seats == 0 then 0 else SeatsShare(t, seats - 1, i, j, k) + SeatShare(t, seats - 1, i, j, k)
  }

  /** A table that is not of four or five seats counts for nothing. */
  function TableMeasure(t: Table, i: nat, j: nat, k: nat): nat
    requires k < 8
  {
    if Scored(t) then SeatsShare(t, |t|, i, j, k) else 0
  }

  function Measure(ts: seq<Table>, i: nat, j: nat, k: nat): nat
    requires k < 8
  {
    if ts == [] then 0
    else Measure(ts[..|ts| - 1], i, j, k) + TableMeasure(ts[|ts| - 1], i, j, k)
  }

  function Tables(rounds: seq<seq<Table>>): seq<Table> {
    if rounds == [] then [] else Tables(rounds[..|rounds| - 1]) + rounds[|rounds| - 1]
  }

  ghost function Players(ts: seq<Table>): set<nat> {
    set t, p | t in ts && p in t :: p
  }

  ghost predicate Below(t: Table, n: nat) {
    forall seat :: 0 <= seat < |t| ==> t[seat] <= n
  }

  // ---- Building the matrix in place -------------------------------------------------

  ghost predicate Fits(m: array3<nat>, n: nat) {
    m.Length0 == n + 1 && m.Length1 == n + 1 && m.Length2 == 8
  }

  method AddRow(m: array3<nat>, n: nat, i: nat, j: nat, row: seq<nat>)
    requires Fits(m, n) && i <= n && j <= n && |row| == 8
    modifies m
    ensures forall a, b, k :: 0 <= a <= n && 0 <= b <= n && 0 <= k < 8 ==>
      m[a, b, k] == old(m[a, b, k]) + (if a == i && b == j then row[k] else 0)
  {
    for k := 0 to 8
      invariant forall a, b, c :: 0 <= a <= n && 0 <= b <= n && 0 <= c < 8 ==>
        m[a, b, c] == old(m[a, b, c]) + (if a == i && b == j && c < k then row[c] else 0)
    {
      m[i, j, k] := m[i, j, k] + row[k];
    }
  }

  method CountOpponents(m: array3<nat>, n: nat, t: Table, seat: nat)
    requires Fits(m, n) && Scored(t) && seat < |t|
    requires Below(t, n)
    modifies m
    ensures forall a, b, k :: 0 <= a <= n && 0 <= b <= n && 0 <= k < 8 ==>
      m[a, b, k] == old(m[a, b, k]) + OpponentShare(t, seat, |t| - 1, a, b, k)
  {
    for rel := 0 to |t| - 1
      invariant forall a, b, k :: 0 <= a <= n && 0 <= b <= n && 0 <= k < 8 ==>
        m[a, b, k] == old(m[a, b, k]) + OpponentShare(t, seat, rel, a, b, k)
    {
      var opp := t[(seat + (rel + 1)) % |t|];
      AddRow(m, n, t[seat], opp, Opponent(|t|, rel));
    }
  }

  method CountSeat(m: array3<nat>, n: nat, t: Table, seat: nat)
    requires Fits(m, n) && Scored(t) && seat < |t|
    requires Below(t, n)
    modifies m
    ensures forall a, b, k :: 0 <= a <= n && 0 <= b <= n && 0 <= k < 8 ==>
      m[a, b, k] == old(m[a, b, k]) + SeatShare(t, seat, a, b, k)
  {
    AddRow(m, n, t[seat], t[seat], Position(|t|, seat));
    CountOpponents(m, n, t, seat);
  }

  method CountTable(m: array3<nat>, n: nat, t: Table)
    requires Fits(m, n)
    requires Below(t, n)
    modifies m
    ensures forall a, b, k :: 0 <= a <= n && 0 <= b <= n && 0 <= k < 8 ==>
      m[a, b, k] == old(m[a, b, k]) + TableMeasure(t, a, b, k)
  {
    if |t| < 4 || |t| > 5 {
      return;
    }
    for seat := 0 to |t|
      invariant forall a, b, k :: 0 <= a <= n && 0 <= b <= n && 0 <= k < 8 ==>
        m[a, b, k] == old(m[a, b, k]) + SeatsShare(t, seat, a, b, k)
    {
      CountSeat(m, n, t, seat);
    }
  }

  ghost predicate Holds(m: array3<nat>, n: nat, ts: seq<Table>)
    reads m
  {
    && Fits(m, n)
    && (forall a: nat, b: nat, k: nat :: a <= n && b <= n && k < 8 ==> m[a, b, k] == Measure(ts, a, b, k))
  }

  method CountRound(m: array3<nat>, n: nat, round: seq<Table>, ghost before: seq<Table>)
    requires Holds(m, n, before)
    requires forall t :: t in round ==> Below(t, n)
    modifies m
    ensures Holds(m, n, before + round)
  {
    assert before + round[..0] == before;
    for i := 0 to |round|
      invariant Holds(m, n, before + round[..i])
    {
      CountTable(m, n, round[i]);
      ghost var ts := before + round[..i + 1];
      assert ts[..|ts| - 1] == before + round[..i] && ts[|ts| - 1] == round[i];
    }
    assert before + round[..|round|] == before + round;
  }

  lemma TablesHold(rounds: seq<seq<Table>>, r: nat)
    requires r < |rounds|
    ensures forall t :: t in rounds[r] ==> t in Tables(rounds)
  {
    var init := rounds[..|rounds| - 1];
    if r < |rounds| - 1 {
      TablesHold(init, r);
      assert init[r] == rounds[r];
    }
  }

  method CountRounds(rounds: seq<seq<Table>>, n: nat) returns (m: array3<nat>)
    requires forall t :: t in Tables(rounds) ==> Below(t, n)
    ensures fresh(m) && Holds(m, n, Tables(rounds))
  {
    m := new nat[n + 1, n + 1, 8]((_, _, _) => 0);
    for r := 0 to |rounds|
      invariant fresh(m) && Holds(m, n, Tables(rounds[..r]))
    {
      TablesHold(rounds, r);
      CountRound(m, n, rounds[r], Tables(rounds[..r]));
      assert rounds[..r + 1][..r] == rounds[..r];
    }
    assert rounds[..|rounds|] == rounds;
  }

  // ---- Laws of one table, lifted to the matrix --------------------------------------

  /** Prey is the mirror of predator, grand-prey of grand-predator, and the other
      opponent counts are their own mirror. */
  function Mirror(k: nat): (m: nat)
    requires k < 8
    ensures m < 8
  {
    match k
    case 1 => 4
    case 2 => 3
    case 3 => 2
    case 4 => 1
    case _ => k
  }

  /** What seat s meeting seat u adds to entry (i, j) at weight w. */
  function Met(t: Table, s: nat, u: nat, i: nat, j: nat, w: nat): nat
    requires s < |t| && u < |t|
  {
    if t[s] == i && t[u] == j then w else 0
  }

  function Weight(size: nat, rel: nat, k: nat): nat
    requires (size == 4 || size == 5) && 1 <= rel < size && k < 8
  {
    Opponent(size, rel - 1)[k]
  }

  lemma MirrorWeight(size: nat, rel: nat, k: nat)
    requires (size == 4 || size == 5) && 1 <= rel < size && k < 8
    ensures Weight(size, rel, k) == Weight(size, size - rel, Mirror(k))
  {
    if size == 4 {
      assert rel == 1 || rel == 2 || rel == 3;
    } else {
      assert rel == 1 || rel == 2 || rel == 3 || rel == 4;
    }
    assert k == 0 || k == 1 || k == 2 || k == 3 || k == 4 || k == 5 || k == 6 || k == 7;
  }

  /** Terms indexed by a seat and how far round the opponent sits, summed over a table. */
  ghost function RoundRow(f: (nat, nat) -> int, s: nat, rels: nat): int {
    if rels == 0 then 0 else RoundRow(f, s, rels - 1) + f(s, rels)
  }

  ghost function RoundTable(f: (nat, nat) -> int, size: nat, seats: nat): int
    requires size > 0
  {
    if seats == 0 then 0 else RoundTable(f, size, seats - 1) + RoundRow(f, seats - 1, size - 1)
  }

  ghost predicate SeesBack(f: (nat, nat) -> int, g: (nat, nat) -> int, size: nat)
    requires size > 0
  {
    forall s: nat, r: nat :: s < size && 1 <= r < size ==> f(s, r) == g((s + r) % size, size - r)
  }

  /** Seat s sees seat u at distance r exactly when u sees s at distance size - r. */
  lemma SeenBack(f: (nat, nat) -> int, g: (nat, nat) -> int, size: nat)
    requires size == 4 || size == 5
    requires SeesBack(f, g, size)
    ensures RoundTable(f, size, size) == RoundTable(g, size, size)
  {
    FourRows(f, size);
    FourRows(g, size);
    if size == 4 {
      FourSeats(f, g);
    } else {
      FiveSeats(f, g);
    }
  }

  lemma FourRows(f: (nat, nat) -> int, size: nat)
    requires size == 4 || size == 5
    ensures RoundTable(f, size, size) == RoundRow(f, 0, size - 1) + RoundRow(f, 1, size - 1)
      + RoundRow(f, 2, size - 1) + RoundRow(f, 3, size - 1) + (if size == 5 then RoundRow(f, 4, 4) else 0)
  {
    assert RoundTable(f, size, 1) == RoundRow(f, 0, size - 1);
    assert RoundTable(f, size, 2) == RoundTable(f, size, 1) + RoundRow(f, 1, size - 1);
    assert RoundTable(f, size, 3) == RoundTable(f, size, 2) + RoundRow(f, 2, size - 1);
    assert RoundTable(f, size, 4) == RoundTable(f, size, 3) + RoundRow(f, 3, size - 1);
  }

  lemma RowTerms(f: (nat, nat) -> int, s: nat)
    ensures RoundRow(f, s, 3) == f(s, 1) + f(s, 2) + f(s, 3)
    ensures RoundRow(f, s, 4) == f(s, 1) + f(s, 2) + f(s, 3) + f(s, 4)
  {
    assert RoundRow(f, s, 1) == f(s, 1);
    assert RoundRow(f, s, 2) == RoundRow(f, s, 1) + f(s, 2);
    assert RoundRow(f, s, 3) == RoundRow(f, s, 2) + f(s, 3);
  }

  lemma FourSeats(f: (nat, nat) -> int, g: (nat, nat) -> int)
    requires SeesBack(f, g, 4)
    ensures RoundRow(f, 0, 3) + RoundRow(f, 1, 3) + RoundRow(f, 2, 3) + RoundRow(f, 3, 3)
         == RoundRow(g, 0, 3) + RoundRow(g, 1, 3) + RoundRow(g, 2, 3) + RoundRow(g, 3, 3)
  {
    RowTerms(f, 0); RowTerms(f, 1); RowTerms(f, 2); RowTerms(f, 3);
    RowTerms(g, 0); RowTerms(g, 1); RowTerms(g, 2); RowTerms(g, 3);
    assert f(0, 1) == g(1, 3) && f(0, 2) == g(2, 2) && f(0, 3) == g(3, 1);
    assert f(1, 1) == g(2, 3) && f(1, 2) == g(3, 2) && f(1, 3) == g(0, 1);
    assert f(2, 1) == g(3, 3) && f(2, 2) == g(0, 2) && f(2, 3) == g(1, 1);
    assert f(3, 1) == g(0, 3) && f(3, 2) == g(1, 2) && f(3, 3) == g(2, 1);
  }

  lemma FiveSeats(f: (nat, nat) -> int, g: (nat, nat) -> int)
    requires SeesBack(f, g, 5)
    ensures RoundRow(f, 0, 4) + RoundRow(f, 1, 4) + RoundRow(f, 2, 4) + RoundRow(f, 3, 4) + RoundRow(f, 4, 4)
         == RoundRow(g, 0, 4) + RoundRow(g, 1, 4) + RoundRow(g, 2, 4) + RoundRow(g, 3, 4) + RoundRow(g, 4, 4)
  {
    RowTerms(f, 0); RowTerms(f, 1); RowTerms(f, 2); RowTerms(f, 3); RowTerms(f, 4);
    RowTerms(g, 0); RowTerms(g, 1); RowTerms(g, 2); RowTerms(g, 3); RowTerms(g, 4);
    assert f(0, 1) == g(1, 4) && f(0, 2) == g(2, 3) && f(0, 3) == g(3, 2) && f(0, 4) == g(4, 1);
    assert f(1, 1) == g(2, 4) && f(1, 2) == g(3, 3) && f(1, 3) == g(4, 2) && f(1, 4) == g(0, 1);
    assert f(2, 1) == g(3, 4) && f(2, 2) == g(4, 3) && f(2, 3) == g(0, 2) && f(2, 4) == g(1, 1);
    assert f(3, 1) == g(4, 4) && f(3, 2) == g(0, 3) && f(3, 3) == g(1, 2) && f(3, 4) == g(2, 1);
    assert f(4, 1) == g(0, 4) && f(4, 2) == g(1, 3) && f(4, 3) == g(2, 2) && f(4, 4) == g(3, 1);
  }

  ghost function Term(t: Table, i: nat, j: nat, k: nat): (nat, nat) -> int
    requires Scored(t) && k < 8
  {
    (s: nat, r: nat) =>
      if s < |t| && 1 <= r < |t| then Met(t, s, (s + r) % |t|, i, j, Weight(|t|, r, k)) else 0
  }

  lemma {:induction false} ShareIsRow(t: Table, s: nat, rels: nat, i: nat, j: nat, k: nat)
    requires Scored(t) && s < |t| && rels < |t| && k < 8
    ensures OpponentShare(t, s, rels, i, j, k) == RoundRow(Term(t, i, j, k), s, rels)
  {
    if rels > 0 {
      ShareIsRow(t, s, rels - 1, i, j, k);
      assert Term(t, i, j, k)(s, rels) == Met(t, s, (s + rels) % |t|, i, j, Weight(|t|, rels, k));
    }
  }

  lemma {:induction false} SharesAreTable(t: Table, seats: nat, i: nat, j: nat, k: nat)
    requires Scored(t) && seats <= |t| && i != j && k < 8
    ensures SeatsShare(t, seats, i, j, k) == RoundTable(Term(t, i, j, k), |t|, seats)
  {
    if seats > 0 {
      SharesAreTable(t, seats - 1, i, j, k);
      ShareIsRow(t, seats - 1, |t| - 1, i, j, k);
    }
  }

  lemma ThereAndBack(size: nat, s: nat, r: nat)
    requires (size == 4 || size == 5) && s < size && r < size
    ensures ((s + r) % size + size - r) % size == s
  {
    if size == 4 {
      assert ((s + r) % 4 + 4 - r) % 4 == s;
    } else {
      assert ((s + r) % 5 + 5 - r) % 5 == s;
    }
  }

  lemma TermIs(t: Table, i: nat, j: nat, k: nat, s: nat, r: nat, u: nat)
    requires Scored(t) && k < 8 && s < |t| && 1 <= r < |t| && u == (s + r) % |t|
    ensures Term(t, i, j, k)(s, r) == Met(t, s, u, i, j, Weight(|t|, r, k))
  {
  }

  lemma MetMirror(t: Table, s: nat, u: nat, i: nat, j: nat, w: nat)
    requires s < |t| && u < |t|
    ensures Met(t, s, u, i, j, w) == Met(t, u, s, j, i, w)
  {
  }

  lemma TermMirror(t: Table, i: nat, j: nat, k: nat, s: nat, r: nat, u: nat)
    requires Scored(t) && k < 8 && s < |t| && 1 <= r < |t| && u == (s + r) % |t|
    ensures Term(t, i, j, k)(s, r) == Term(t, j, i, Mirror(k))(u, |t| - r)
  {
    ThereAndBack(|t|, s, r);
    TermIs(t, i, j, k, s, r, u);
    TermIs(t, j, i, Mirror(k), u, |t| - r, s);
    MirrorWeight(|t|, r, k);
    MetMirror(t, s, u, i, j, Weight(|t|, r, k));
  }

  lemma TermsSeeBack(t: Table, i: nat, j: nat, k: nat)
    requires Scored(t) && k < 8
    ensures SeesBack(Term(t, i, j, k), Term(t, j, i, Mirror(k)), |t|)
  {
    forall s: nat, r: nat | s < |t| && 1 <= r < |t|
      ensures Term(t, i, j, k)(s, r) == Term(t, j, i, Mirror(k))((s + r) % |t|, |t| - r)
    {
      TermMirror(t, i, j, k, s, r, (s + r) % |t|);
    }
  }

  lemma TableMirror(t: Table, i: nat, j: nat, k: nat)
    requires i != j && k < 8
    ensures TableMeasure(t, i, j, k) == TableMeasure(t, j, i, Mirror(k))
  {
    if Scored(t) {
      SharesAreTable(t, |t|, i, j, k);
      SharesAreTable(t, |t|, j, i, Mirror(k));
      TermsSeeBack(t, i, j, k);
      SeenBack(Term(t, i, j, k), Term(t, j, i, Mirror(k)), |t|);
    }
  }

  /** The duality the half scan rests on: i met j as prey as often as j met i as
      predator, likewise for grand-prey, and the other counts are symmetric. */
  lemma {:induction false} Duality(ts: seq<Table>, i: nat, j: nat, k: nat)
    requires i != j && k < 8
    ensures Measure(ts, i, j, k) == Measure(ts, j, i, Mirror(k))
  {
    if ts != [] {
      Duality(ts[..|ts| - 1], i, j, k);
      TableMirror(ts[|ts| - 1], i, j, k);
    }
  }

  // ---- What the rows of the tables of relations say ---------------------------------

  lemma OpponentRow(size: nat, rel: nat)
    requires (size == 4 || size == 5) && rel < size - 1
    ensures var row := Opponent(size, rel);
      && row[0] == 1
      && row[0] == row[1] + row[2] + row[3] + row[4] + row[5]
      && row[0] == row[6] + row[7]
  {
    if size == 4 {
      assert rel == 0 || rel == 1 || rel == 2;
    } else {
      assert rel == 0 || rel == 1 || rel == 2 || rel == 3;
    }
  }

  /** One meeting is one relation, and either a neighbour's or a stranger's. */
  lemma {:induction false} ShareSplits(t: Table, s: nat, rels: nat, i: nat, j: nat)
    requires Scored(t) && s < |t| && rels < |t|
    ensures OpponentShare(t, s, rels, i, j, 0)
         == OpponentShare(t, s, rels, i, j, 1) + OpponentShare(t, s, rels, i, j, 2)
          + OpponentShare(t, s, rels, i, j, 3) + OpponentShare(t, s, rels, i, j, 4)
          + OpponentShare(t, s, rels, i, j, 5)
    ensures OpponentShare(t, s, rels, i, j, 0)
         == OpponentShare(t, s, rels, i, j, 6) + OpponentShare(t, s, rels, i, j, 7)
  {
    if rels > 0 {
      ShareSplits(t, s, rels - 1, i, j);
      OpponentRow(|t|, rels - 1);
    }
  }

  lemma SeatSplits(t: Table, s: nat, i: nat, j: nat)
    requires Scored(t) && s < |t| && i != j
    ensures SeatShare(t, s, i, j, 0)
         == SeatShare(t, s, i, j, 1) + SeatShare(t, s, i, j, 2) + SeatShare(t, s, i, j, 3)
          + SeatShare(t, s, i, j, 4) + SeatShare(t, s, i, j, 5)
    ensures SeatShare(t, s, i, j, 0) == SeatShare(t, s, i, j, 6) + SeatShare(t, s, i, j, 7)
  {
    ShareSplits(t, s, |t| - 1, i, j);
  }

  lemma {:induction false} SeatsSplit(t: Table, seats: nat, i: nat, j: nat)
    requires Scored(t) && seats <= |t| && i != j
    ensures SeatsShare(t, seats, i, j, 0)
         == SeatsShare(t, seats, i, j, 1) + SeatsShare(t, seats, i, j, 2) + SeatsShare(t, seats, i, j, 3)
          + SeatsShare(t, seats, i, j, 4) + SeatsShare(t, seats, i, j, 5)
    ensures SeatsShare(t, seats, i, j, 0) == SeatsShare(t, seats, i, j, 6) + SeatsShare(t, seats, i, j, 7)
  {
    if seats > 0 {
      SeatsSplit(t, seats - 1, i, j);
      SeatSplits(t, seats - 1, i, j);
    }
  }

  /** A pair's meetings are the sum of its five relations, and of its two position groups. */
  lemma {:induction false} MeetingsSplit(ts: seq<Table>, i: nat, j: nat)
    requires i != j
    ensures Measure(ts, i, j, 0)
         == Measure(ts, i, j, 1) + Measure(ts, i, j, 2) + Measure(ts, i, j, 3)
          + Measure(ts, i, j, 4) + Measure(ts, i, j, 5)
    ensures Measure(ts, i, j, 0) == Measure(ts, i, j, 6) + Measure(ts, i, j, 7)
  {
    if ts != [] {
      MeetingsSplit(ts[..|ts| - 1], i, j);
      var t := ts[|ts| - 1];
      if Scored(t) {
        SeatsSplit(t, |t|, i, j);
      }
    }
  }

  /** An entry whose count is zero is zero throughout. */
  lemma {:induction false} SeatsIdle(t: Table, seats: nat, i: nat, j: nat, k: nat)
    requires Scored(t) && seats <= |t| && k < 8
    requires SeatsShare(t, seats, i, j, 0) == 0
    ensures SeatsShare(t, seats, i, j, k) == 0
  {
    if seats > 0 {
      SeatsIdle(t, seats - 1, i, j, k);
      ShareIdle(t, seats - 1, |t| - 1, i, j, k);
    }
  }

  lemma {:induction false} ShareIdle(t: Table, s: nat, rels: nat, i: nat, j: nat, k: nat)
    requires Scored(t) && s < |t| && rels < |t| && k < 8
    requires OpponentShare(t, s, rels, i, j, 0) == 0
    ensures OpponentShare(t, s, rels, i, j, k) == 0
  {
    if rels > 0 {
      ShareIdle(t, s, rels - 1, i, j, k);
      OpponentRow(|t|, rels - 1);
    }
  }

  lemma {:induction false} Idle(ts: seq<Table>, i: nat, j: nat, k: nat)
    requires k < 8 && Measure(ts, i, j, 0) == 0
    ensures Measure(ts, i, j, k) == 0
  {
    if ts != [] {
      Idle(ts[..|ts| - 1], i, j, k);
      var t := ts[|ts| - 1];
      if Scored(t) {
        SeatsIdle(t, |t|, i, j, k);
      }
    }
  }

  /** Nobody is counted who does not sit at a table. */
  lemma {:induction false} ShareAbsent(t: Table, s: nat, rels: nat, i: nat, j: nat, k: nat)
    requires Scored(t) && s < |t| && rels < |t| && k < 8 && (i !in t || j !in t)
    ensures OpponentShare(t, s, rels, i, j, k) == 0
  {
    if rels > 0 {
      ShareAbsent(t, s, rels - 1, i, j, k);
    }
  }

  lemma {:induction false} SeatsAbsent(t: Table, seats: nat, i: nat, j: nat, k: nat)
    requires Scored(t) && seats <= |t| && k < 8 && (i !in t || j !in t)
    ensures SeatsShare(t, seats, i, j, k) == 0
  {
    if seats > 0 {
      SeatsAbsent(t, seats - 1, i, j, k);
      ShareAbsent(t, seats - 1, |t| - 1, i, j, k);
    }
  }

  lemma {:induction false} Absent(ts: seq<Table>, i: nat, j: nat, k: nat)
    requires k < 8 && (i !in Players(ts) || j !in Players(ts))
    ensures Measure(ts, i, j, k) == 0
  {
    if ts != [] {
      var init, t := ts[..|ts| - 1], ts[|ts| - 1];
      assert Players(init) <= Players(ts);
      Absent(init, i, j, k);
      assert i !in t || j !in t;
      if Scored(t) {
        SeatsAbsent(t, |t|, i, j, k);
      }
    }
  }
}

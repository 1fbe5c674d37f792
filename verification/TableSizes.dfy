/** engine/compare_seating.py: splitting a round's players into tables of four and five. */
module TableSizes {
  import opened Base

  function Sum(sizes: seq<nat>): nat {
    if sizes == [] then 0 else Sum(sizes[..|sizes| - 1]) + sizes[|sizes| - 1]
  }

  function Copies(size: nat, count: nat): (sizes: seq<nat>)
    ensures |sizes| == count && forall n :: 0 <= n < count ==> sizes[n] == size
  {
    seq(count, _ => size)
  }

  /** n players sit at `fives` tables of five and `fours` tables of four. */
  predicate Splits(n: int, fives: nat, fours: nat) {
    5 * fives + 4 * fours == n
  }

  /** No split has more than `fives` tables of five. */
  ghost predicate MostFives(n: int, fives: nat) {
    forall a: nat, b: nat :: Splits(n, a, b) ==> a <= fives
  }

  ghost predicate Splittable(n: int) {
    exists a: nat, b: nat :: Splits(n, a, b)
  }

  /** Only 6, 7 and 11 players cannot be split: any four consecutive numbers of
      fives leave the four different remainders modulo four. */
  lemma OnlyThreeMisfits(n: int)
    requires n >= 4
    ensures Splittable(n) <==> n !in {6, 7, 11}
  {
    if n !in {6, 7, 11} {
      var a := n % 4;
      var b := (n - 5 * a) / 4;
      assert n == 4 ==> a == 0;
      assert n >= 5 * a;
      assert Splits(n, a, b);
    } else {
      forall a: nat, b: nat
        ensures !Splits(n, a, b)
      {
        if a <= 2 {
          assert a == 0 || a == 1 || a == 2;
        }
      }
    }
  }

  lemma {:induction false} SumOfCopies(sizes: seq<nat>, size: nat, count: nat)
    ensures size == 4 ==> Sum(sizes + Copies(size, count)) == Sum(sizes) + 4 * count
    ensures size == 5 ==> Sum(sizes + Copies(size, count)) == Sum(sizes) + 5 * count
    decreases count
  {
    if count == 0 {
      assert sizes + Copies(size, 0) == sizes;
    } else {
      SumOfCopies(sizes, size, count - 1);
      var all := sizes + Copies(size, count);
      assert all[..|all| - 1] == sizes + Copies(size, count - 1);
      assert all[|all| - 1] == size;
    }
  }

  /** The tables of five, the most there can be, then the tables of four. */
  ghost predicate FivesFirst(n: int, sizes: seq<nat>) {
    exists fives: nat, fours: nat ::
      Splits(n, fives, fours) && MostFives(n, fives) && sizes == Copies(5, fives) + Copies(4, fours)
  }

  /** Below four players there is no table; otherwise the split with the most
      tables of five, those first, or nothing when there is no split. */
  method GetTableSizes(n: int) returns (sizes: Option<seq<nat>>)
    ensures n < 4 ==> sizes == Some([])
    ensures n >= 4 ==> (sizes.None? <==> n in {6, 7, 11})
    ensures n >= 4 && sizes.Some? ==> Sum(sizes.value) == n && FivesFirst(n, sizes.value)
  {
    if n < 4 {
      return Some([]);
    }
    var fives := n / 5;
    while fives >= 0
      invariant -1 <= fives <= n / 5
      invariant forall a: nat, b: nat :: Splits(n, a, b) ==> a <= fives
    {
      var leftover := n - 5 * fives;
      if leftover >= 0 && leftover % 4 == 0 {
        var fours := leftover / 4;
        assert Splits(n, fives, fours) && MostFives(n, fives);
        SumOfCopies([], 5, fives);
        SumOfCopies(Copies(5, fives), 4, fours);
        assert [] + Copies(5, fives) == Copies(5, fives);
        OnlyThreeMisfits(n);
        return Some(Copies(5, fives) + Copies(4, fours));
      }
      forall a: nat, b: nat | Splits(n, a, b)
        ensures a <= fives - 1
      {
        assert a == fives ==> leftover == 4 * b;
      }
      fives := fives - 1;
    }
    OnlyThreeMisfits(n);
    sizes := None;
  }

  function Flat(tables: seq<seq<nat>>): seq<nat> {
    if tables == [] then [] else Flat(tables[..|tables| - 1]) + tables[|tables| - 1]
  }

  function Lengths(tables: seq<seq<nat>>): (sizes: seq<nat>)
    ensures |sizes| == |tables| && forall t :: 0 <= t < |tables| ==> sizes[t] == |tables[t]|
  {
    seq(|tables|, t requires 0 <= t < |tables| => |tables[t]|)
  }

  lemma OneSizeMore(sizes: seq<nat>, t: nat)
    requires t < |sizes|
    ensures Sum(sizes[..t + 1]) == Sum(sizes[..t]) + sizes[t]
  {
    assert sizes[..t + 1][..t] == sizes[..t];
  }

  lemma OneTableMore(tables: seq<seq<nat>>, table: seq<nat>)
    ensures Flat(tables + [table]) == Flat(tables) + table
  {
    assert (tables + [table])[..|tables|] == tables;
  }

  lemma {:induction false} SumGrows(sizes: seq<nat>, t: nat)
    requires t <= |sizes|
    ensures Sum(sizes[..t]) <= Sum(sizes)
    decreases |sizes| - t
  {
    if t == |sizes| {
      assert sizes[..t] == sizes;
    } else {
      SumGrows(sizes, t + 1);
      assert sizes[..t + 1][..t] == sizes[..t];
    }
  }

  /** The first t tables are cut off the front of the players. */
  ghost predicate Cut(players: seq<nat>, sizes: seq<nat>, tables: seq<seq<nat>>, t: nat, idx: nat)
    requires t <= |sizes|
  {
    && idx == Sum(sizes[..t]) <= |players| && Flat(tables) == players[..idx]
    && |tables| == t && Lengths(tables) == sizes[..t]
  }

  lemma OneLengthMore(tables: seq<seq<nat>>, table: seq<nat>, sizes: seq<nat>, t: nat)
    requires t < |sizes| && Lengths(tables) == sizes[..t] && |table| == sizes[t]
    ensures Lengths(tables + [table]) == sizes[..t + 1]
  {
    assert Lengths(tables + [table]) == Lengths(tables) + [|table|];
    assert sizes[..t + 1] == sizes[..t] + [sizes[t]];
  }

  lemma RoomForOneMore(sizes: seq<nat>, t: nat)
    requires t < |sizes|
    ensures Sum(sizes[..t]) + sizes[t] == Sum(sizes[..t + 1]) <= Sum(sizes)
  {
    SumGrows(sizes, t + 1);
    OneSizeMore(sizes, t);
  }

  lemma CutOneMore(players: seq<nat>, sizes: seq<nat>, tables: seq<seq<nat>>, t: nat, idx: nat, table: seq<nat>)
    requires t < |sizes| && Cut(players, sizes, tables, t, idx)
    requires idx + sizes[t] == Sum(sizes[..t + 1]) <= |players| && table == players[idx..idx + sizes[t]]
    ensures Cut(players, sizes, tables + [table], t + 1, idx + sizes[t])
  {
    OneTableMore(tables, table);
    OneLengthMore(tables, table, sizes, t);
    assert players[..idx] + table == players[..idx + sizes[t]];
  }

  /** Cuts a round's players, in order, into tables of the prescribed sizes; a
      count that has no sizes, or that the players do not match, is refused. */
  method ParseRound(players: seq<nat>, n: int) returns (tables: Option<seq<seq<nat>>>)
    ensures tables.None? <==> n < 4 || n in {6, 7, 11} || |players| != n
    ensures tables.Some? ==> Flat(tables.value) == players
    ensures tables.Some? ==> FivesFirst(n, Lengths(tables.value))
  {
    var found := GetTableSizes(n);
    if found.None? || found.value == [] || |players| != n {
      return None;
    }
    var sizes := found.value;
    var cut: seq<seq<nat>>, idx: nat := [], 0;
    for t := 0 to |sizes|
      invariant Cut(players, sizes, cut, t, idx)
    {
      RoomForOneMore(sizes, t);
      var table := players[idx..idx + sizes[t]];
      CutOneMore(players, sizes, cut, t, idx, table);
      cut, idx := cut + [table], idx + sizes[t];
    }
    assert sizes[..|sizes|] == sizes && players[..|players|] == players;
    tables := Some(cut);
  }
}

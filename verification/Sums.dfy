/** Sums over finite sets, and the few laws the models need about them. */
module Sums {

  ghost function SumOver<T(!new)>(s: set<T>, f: T -> int): int {
    if s == {} then 0
    else
      var x :| x in s;
      f(x) + SumOver(s - {x}, f)
  }

  /** The order in which a sum takes its terms does not matter. */
  lemma {:induction false} SumPick<T(!new)>(s: set<T>, f: T -> int, y: T)
    requires y in s
    ensures SumOver(s, f) == f(y) + SumOver(s - {y}, f)
    decreases s
  {
    var x :| x in s && SumOver(s, f) == f(x) + SumOver(s - {x}, f);
    if x != y {
      SumPick(s - {x}, f, y);
      SumPick(s - {y}, f, x);
      assert s - {x} - {y} == s - {y} - {x};
    }
  }

  lemma {:induction false} SumAgree<T(!new)>(s: set<T>, f: T -> int, g: T -> int)
    requires forall x :: x in s ==> f(x) == g(x)
    ensures SumOver(s, f) == SumOver(s, g)
    decreases s
  {
    if s != {} {
      var x :| x in s;
      SumPick(s, f, x);
      SumPick(s, g, x);
      SumAgree(s - {x}, f, g);
    }
  }

  lemma {:induction false} SumAdd<T(!new)>(s: set<T>, f: T -> int, g: T -> int, h: T -> int)
    requires forall x :: x in s ==> h(x) == f(x) + g(x)
    ensures SumOver(s, h) == SumOver(s, f) + SumOver(s, g)
    decreases s
  {
    if s != {} {
      var x :| x in s;
      SumPick(s, f, x);
      SumPick(s, g, x);
      SumPick(s, h, x);
      SumAdd(s - {x}, f, g, h);
    }
  }

  lemma {:induction false} SumZero<T(!new)>(s: set<T>, f: T -> int)
    requires forall x :: x in s ==> f(x) == 0
    ensures SumOver(s, f) == 0
    decreases s
  {
    if s != {} {
      var x :| x in s;
      SumPick(s, f, x);
      SumZero(s - {x}, f);
    }
  }

  /** Terms that vanish outside `part` may be left out. */
  lemma {:induction false} SumPart<T(!new)>(part: set<T>, s: set<T>, f: T -> int)
    requires part <= s
    requires forall x :: x in s - part ==> f(x) == 0
    ensures SumOver(s, f) == SumOver(part, f)
    decreases s
  {
    if s - part != {} {
      var x :| x in s - part;
      SumPick(s, f, x);
      SumPart(part, s - {x}, f);
    } else {
      assert forall x :: x in s ==> x in part || x in s - part;
      assert s == part;
    }
  }

  /** A sum with one non-zero term is that term. */
  lemma SumSingle<T(!new)>(s: set<T>, f: T -> int, y: T)
    requires y in s
    requires forall x :: x in s - {y} ==> f(x) == 0
    ensures SumOver(s, f) == f(y)
  {
    SumPick(s, f, y);
    SumZero(s - {y}, f);
  }

  lemma {:induction false} SumAtMost<T(!new)>(s: set<T>, f: T -> int, g: T -> int)
    requires forall x :: x in s ==> f(x) <= g(x)
    ensures SumOver(s, f) <= SumOver(s, g)
    decreases s
  {
    if s != {} {
      var x :| x in s;
      SumPick(s, f, x);
      SumPick(s, g, x);
      SumAtMost(s - {x}, f, g);
    }
  }

  /** With no negative term, no term exceeds the sum. */
  lemma TermAtMost<T(!new)>(s: set<T>, f: T -> int, y: T)
    requires y in s && forall x :: x in s ==> f(x) >= 0
    ensures 0 <= f(y) <= SumOver(s, f)
  {
    var zero := (x: T) => 0;
    SumPick(s, f, y);
    SumAtMost(s - {y}, zero, f);
    SumZero(s - {y}, zero);
  }

  lemma {:induction false} SumOnes<T(!new)>(s: set<T>, f: T -> int)
    requires forall x :: x in s ==> f(x) == 1
    ensures SumOver(s, f) == |s|
    decreases s
  {
    if s != {} {
      var x :| x in s;
      SumPick(s, f, x);
      SumOnes(s - {x}, f);
    }
  }

  ghost predicate Injective<T(!new), U(!new)>(s: set<T>, p: T -> U) {
    forall x, y :: x in s && y in s && p(x) == p(y) ==> x == y
  }

  ghost predicate Onto<T(!new), U(!new)>(s: set<T>, p: T -> U, image: set<U>) {
    && (forall x :: x in s ==> p(x) in image)
    && (forall u :: u in image ==> exists x :: x in s && p(x) == u)
  }

  /** Renaming the index set by a bijection keeps the sum. */
  lemma {:induction false} SumRename<T(!new), U(!new)>(s: set<T>, f: T -> int, p: T -> U, image: set<U>, g: U -> int)
    requires Injective(s, p) && Onto(s, p, image)
    requires forall x :: x in s ==> f(x) == g(p(x))
    ensures SumOver(s, f) == SumOver(image, g)
    decreases s
  {
    if s == {} {
      assert image == {};
    } else {
      var x :| x in s;
      SumPick(s, f, x);
      SumPick(image, g, p(x));
      assert Onto(s - {x}, p, image - {p(x)});
      SumRename(s - {x}, f, p, image - {p(x)}, g);
    }
  }

  /** f summed over the ordered pairs of distinct members of s, first member by first member. */
  ghost function Slice<T(!new)>(f: (T, T) -> int, i: T): T -> int {
    j => f(i, j)
  }

  ghost function PartnerSum<T(!new)>(s: set<T>, f: (T, T) -> int): T -> int {
    i => SumOver(s - {i}, Slice(f, i))
  }

  ghost function PairSum<T(!new)>(s: set<T>, f: (T, T) -> int): int {
    SumOver(s, PartnerSum(s, f))
  }

  lemma PairSumRename<T(!new), U(!new)>(s: set<T>, f: (T, T) -> int, p: T -> U, image: set<U>, g: (U, U) -> int)
    requires Injective(s, p) && Onto(s, p, image)
    requires forall i, j :: i in s && j in s && i != j ==> f(i, j) == g(p(i), p(j))
    ensures PairSum(s, f) == PairSum(image, g)
  {
    forall i | i in s
      ensures PartnerSum(s, f)(i) == PartnerSum(image, g)(p(i))
    {
      assert Onto(s - {i}, p, image - {p(i)});
      SumRename(s - {i}, Slice(f, i), p, image - {p(i)}, Slice(g, p(i)));
    }
    SumRename(s, PartnerSum(s, f), p, image, PartnerSum(image, g));
  }

  lemma PairSumPart<T(!new)>(part: set<T>, s: set<T>, f: (T, T) -> int)
    requires part <= s
    requires forall i, j :: i in s && j in s && i != j && (i !in part || j !in part) ==> f(i, j) == 0
    ensures PairSum(s, f) == PairSum(part, f)
  {
    forall i | i in s
      ensures i in part ==> PartnerSum(s, f)(i) == PartnerSum(part, f)(i)
      ensures i !in part ==> PartnerSum(s, f)(i) == 0
    {
      if i in part {
        SumPart(part - {i}, s - {i}, Slice(f, i));
      } else {
        SumZero(s - {i}, Slice(f, i));
      }
    }
    SumPart(part, s, PartnerSum(s, f));
    SumAgree(part, PartnerSum(s, f), PartnerSum(part, f));
  }

  lemma PairSumAtMost<T(!new)>(s: set<T>, f: (T, T) -> int, g: (T, T) -> int)
    requires forall i, j :: i in s && j in s && i != j ==> f(i, j) <= g(i, j)
    ensures PairSum(s, f) <= PairSum(s, g)
  {
    forall i | i in s
      ensures PartnerSum(s, f)(i) <= PartnerSum(s, g)(i)
    {
      SumAtMost(s - {i}, Slice(f, i), Slice(g, i));
    }
    SumAtMost(s, PartnerSum(s, f), PartnerSum(s, g));
  }

  lemma PairTermAtMost<T(!new)>(s: set<T>, f: (T, T) -> int, i: T, j: T)
    requires i in s && j in s && i != j
    requires forall a, b :: a in s && b in s && a != b ==> f(a, b) >= 0
    ensures f(i, j) <= PairSum(s, f)
  {
    forall a | a in s
      ensures PartnerSum(s, f)(a) >= 0
    {
      var zero := (x: T) => 0;
      SumAtMost(s - {a}, zero, Slice(f, a));
      SumZero(s - {a}, zero);
    }
    TermAtMost(s - {i}, Slice(f, i), j);
    TermAtMost(s, PartnerSum(s, f), i);
  }

  /** The scan of half the pairs: i from 1 to n, and for each the j below it. */
  ghost function RowScan(f: (nat, nat) -> int, i: nat, below: nat): int {
    if below == 0 then 0 else RowScan(f, i, below - 1) + f(i, below)
  }

  ghost function HalfScan(f: (nat, nat) -> int, n: nat): int {
    if n == 0 then 0 else HalfScan(f, n - 1) + RowScan(f, n, n - 1)
  }

  predicate Counted(i: nat, n: nat) {
    1 <= i <= n
  }

  ghost function UpTo(n: nat): set<nat> {
    set i: nat | i <= n && Counted(i, n)
  }

  lemma {:induction false} RowScanIsSum(f: (nat, nat) -> int, i: nat, below: nat)
    ensures RowScan(f, i, below) == SumOver(UpTo(below), Slice(f, i))
  {
    if below > 0 {
      RowScanIsSum(f, i, below - 1);
      SumPick(UpTo(below), Slice(f, i), below);
      assert UpTo(below) - {below} == UpTo(below - 1);
    } else {
      assert UpTo(0) == {};
    }
  }

  ghost predicate Symmetric<T(!new)>(f: (T, T) -> int) {
    forall i, j :: i != j ==> f(i, j) == f(j, i)
  }

  /** What joining a new member n adds to the partner sum of an older one. */
  lemma PartnerJoins(f: (nat, nat) -> int, n: nat, i: nat)
    requires n > 0 && i in UpTo(n - 1) && Symmetric(f)
    ensures PartnerSum(UpTo(n), f)(i) == PartnerSum(UpTo(n - 1), f)(i) + Slice(f, n)(i)
  {
    SumPick(UpTo(n) - {i}, Slice(f, i), n);
    assert UpTo(n) - {i} - {n} == UpTo(n - 1) - {i};
    assert f(i, n) == f(n, i);
  }

  lemma PairSumJoins(f: (nat, nat) -> int, n: nat)
    requires n > 0 && Symmetric(f)
    ensures PairSum(UpTo(n), f) == PairSum(UpTo(n - 1), f) + 2 * RowScan(f, n, n - 1)
  {
    var rest, every, older, newest := UpTo(n - 1), PartnerSum(UpTo(n), f), PartnerSum(UpTo(n - 1), f), Slice(f, n);
    assert UpTo(n) - {n} == rest;
    SumPick(UpTo(n), every, n);
    assert every(n) == SumOver(rest, newest);
    RowScanIsSum(f, n, n - 1);
    assert forall i :: i in rest ==> every(i) == older(i) + newest(i) by {
      forall i | i in rest
        ensures every(i) == older(i) + newest(i)
      {
        PartnerJoins(f, n, i);
      }
    }
    SumAdd(rest, older, newest, every);
  }

  /** Scanning half the pairs is enough exactly because f is symmetric: it finds
      half of the sum over all of them. */
  lemma {:induction false} HalfScanIsHalf(f: (nat, nat) -> int, n: nat)
    requires Symmetric(f)
    ensures 2 * HalfScan(f, n) == PairSum(UpTo(n), f)
  {
    if n == 0 {
      assert UpTo(0) == {};
    } else {
      HalfScanIsHalf(f, n - 1);
      PairSumJoins(f, n);
    }
  }
}

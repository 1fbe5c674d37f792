/** promo_stock.py: what each holder's inventory of each promo amounts to, summed
    from the ledger and from the tournaments' distribution reports. */
module PromoLedger {
  import opened Base
  import opened Lists
  import opened Sums

  datatype Kind = Intake | Assignment | Distribution

  /** A negative quantity is a compensating correction. */
  datatype Entry = Entry(kind: Kind, promo: Uid, qty: int, from: Uid, to: Option<Uid>)

  /** One line of a live tournament's report, charged to the report's stock source. */
  datatype Attribution = Attribution(promo: Uid, holder: Uid, qty: int)

  datatype Holding = Holding(credited: int, remaining: int)

  /** One change of one holder's inventory. */
  datatype Posting = Posting(promo: Uid, holder: Uid, credited: int, remaining: int)

  predicate Targeted(e: Entry) {
    e.kind == Assignment && e.to.Some? && e.to.value != ""
  }

  function Posted(e: Entry): seq<Posting> {
    if e.kind == Intake then [Posting(e.promo, e.from, e.qty, e.qty)]
    else
      (if Targeted(e) then [Posting(e.promo, e.to.value, e.qty, e.qty)] else [])
      + [Posting(e.promo, e.from, 0, -e.qty)]
  }

  function Charged(a: Attribution): Posting {
    Posting(a.promo, a.holder, 0, -a.qty)
  }

  function LedgerPostings(ledger: seq<Entry>): seq<Posting> {
    if ledger == [] then [] else LedgerPostings(ledger[..|ledger| - 1]) + Posted(ledger[|ledger| - 1])
  }

  function ReportPostings(reports: seq<Attribution>): seq<Posting> {
    if reports == [] then [] else ReportPostings(reports[..|reports| - 1]) + [Charged(reports[|reports| - 1])]
  }

  function Postings(ledger: seq<Entry>, reports: seq<Attribution>): seq<Posting> {
    LedgerPostings(ledger) + ReportPostings(reports)
  }

  /** Whether a holder is named at all, and what he was credited with and has left. */
  datatype Tally = Tally(named: bool, credited: int, remaining: int)

  const NOTHING := Tally(false, 0, 0)

  function Plus(a: Tally, b: Tally): Tally {
    Tally(a.named || b.named, a.credited + b.credited, a.remaining + b.remaining)
  }

  function Share(p: Posting, promo: Uid, holder: Uid): Tally {
    if p.promo == promo && p.holder == holder then Tally(true, p.credited, p.remaining) else NOTHING
  }

  function Stock(ps: seq<Posting>, promo: Uid, holder: Uid): Tally {
    if ps == [] then NOTHING
    else Plus(Stock(ps[..|ps| - 1], promo, holder), Share(ps[|ps| - 1], promo, holder))
  }

  function Holders(ps: seq<Posting>, promo: Uid): set<Uid> {
    set p | p in ps && Stock(ps, promo, p.holder).named :: p.holder
  }

  lemma {:induction false} NamedOnce(ps: seq<Posting>, promo: Uid, h: Uid)
    requires Stock(ps, promo, h).named
    ensures exists p :: p in ps && p.promo == promo && p.holder == h
  {
    var init, p := ps[..|ps| - 1], ps[|ps| - 1];
    if Stock(init, promo, h).named {
      NamedOnce(init, promo, h);
      var q :| q in init && q.promo == promo && q.holder == h;
      assert q in ps;
    } else {
      assert p in ps;
    }
  }

  lemma HoldersAreNamed(ps: seq<Posting>, promo: Uid, h: Uid)
    ensures h in Holders(ps, promo) <==> Stock(ps, promo, h).named
  {
    if Stock(ps, promo, h).named {
      NamedOnce(ps, promo, h);
    }
  }

  /** Everyone a posting of the promo names, with what the postings add up to. */
  function Holdings(ps: seq<Posting>, promo: Uid): map<Uid, Holding> {
    map h | h in Holders(ps, promo) :: Holding(Stock(ps, promo, h).credited, Stock(ps, promo, h).remaining)
  }

  // ---- The aggregation loop ---------------------------------------------------------

  function Table(ps: seq<Posting>, promos: set<Uid>): map<Uid, map<Uid, Holding>> {
    map u | u in promos :: Holdings(ps, u)
  }

  lemma {:induction false} Unheld(ps: seq<Posting>, promo: Uid, h: Uid)
    requires !Stock(ps, promo, h).named
    ensures Stock(ps, promo, h) == NOTHING
  {
    if ps != [] {
      Unheld(ps[..|ps| - 1], promo, h);
    }
  }

  lemma Appended(ps: seq<Posting>, p: Posting, promo: Uid, h: Uid)
    ensures Stock(ps + [p], promo, h) == Plus(Stock(ps, promo, h), Share(p, promo, h))
  {
    var qs := ps + [p];
    assert qs[..|qs| - 1] == ps;
  }

  lemma {:induction false} Concatenated(ps: seq<Posting>, qs: seq<Posting>, promo: Uid, h: Uid)
    ensures Stock(ps + qs, promo, h) == Plus(Stock(ps, promo, h), Stock(qs, promo, h))
    decreases |qs|
  {
    if qs == [] {
      assert ps + qs == ps;
    } else {
      var init := qs[..|qs| - 1];
      assert (ps + qs)[..|ps + qs| - 1] == ps + init;
      Concatenated(ps, init, promo, h);
    }
  }

  lemma SameHoldings(ps: seq<Posting>, qs: seq<Posting>, promo: Uid)
    requires forall h :: Stock(ps, promo, h) == Stock(qs, promo, h)
    ensures Holdings(ps, promo) == Holdings(qs, promo)
  {
    forall h
      ensures h in Holdings(ps, promo) <==> h in Holdings(qs, promo)
    {
      HoldersAreNamed(ps, promo, h);
      HoldersAreNamed(qs, promo, h);
    }
  }

  function Raised(per: map<Uid, Holding>, p: Posting): map<Uid, Holding> {
    var h := if p.holder in per then per[p.holder] else Holding(0, 0);
    per[p.holder := Holding(h.credited + p.credited, h.remaining + p.remaining)]
  }

  lemma HoldersRaised(ps: seq<Posting>, p: Posting, x: Uid)
    ensures x in Holdings(ps + [p], p.promo) <==> x in Holdings(ps, p.promo) || x == p.holder
  {
    Appended(ps, p, p.promo, x);
    HoldersAreNamed(ps, p.promo, x);
    HoldersAreNamed(ps + [p], p.promo, x);
  }

  lemma HolderRaised(ps: seq<Posting>, p: Posting, x: Uid)
    requires x in Holdings(ps + [p], p.promo)
    ensures x in Raised(Holdings(ps, p.promo), p)
    ensures Holdings(ps + [p], p.promo)[x] == Raised(Holdings(ps, p.promo), p)[x]
  {
    HoldersRaised(ps, p, x);
    Appended(ps, p, p.promo, x);
    HoldersAreNamed(ps, p.promo, x);
    if x !in Holdings(ps, p.promo) {
      Unheld(ps, p.promo, x);
    }
  }

  lemma HoldingsRaised(ps: seq<Posting>, p: Posting)
    ensures Holdings(ps + [p], p.promo) == Raised(Holdings(ps, p.promo), p)
  {
    var before, after := Holdings(ps, p.promo), Holdings(ps + [p], p.promo);
    forall x ensures x in after <==> x in Raised(before, p) {
      HoldersRaised(ps, p, x);
    }
    forall x | x in after ensures after[x] == Raised(before, p)[x] {
      HolderRaised(ps, p, x);
    }
  }

  lemma HoldingsKept(ps: seq<Posting>, p: Posting, promo: Uid)
    requires promo != p.promo
    ensures Holdings(ps + [p], promo) == Holdings(ps, promo)
  {
    forall h
      ensures Stock(ps + [p], promo, h) == Stock(ps, promo, h)
    {
      Appended(ps, p, promo, h);
    }
    SameHoldings(ps + [p], ps, promo);
  }

  lemma TableRaised(ps: seq<Posting>, p: Posting, promos: set<Uid>)
    requires p.promo in promos
    ensures Table(ps + [p], promos) == Table(ps, promos)[p.promo := Raised(Holdings(ps, p.promo), p)]
  {
    HoldingsRaised(ps, p);
    forall u | u in promos && u != p.promo
      ensures Holdings(ps + [p], u) == Holdings(ps, u)
    {
      HoldingsKept(ps, p, u);
    }
  }

  /** Finds or opens the holder's record and adds to it. */
  method Hold(holdings: map<Uid, map<Uid, Holding>>, p: Posting, ghost ps: seq<Posting>, ghost promos: set<Uid>)
    returns (next: map<Uid, map<Uid, Holding>>)
    requires p.promo in promos && holdings == Table(ps, promos)
    ensures next == Table(ps + [p], promos)
  {
    var per := holdings[p.promo];
    var h := if p.holder in per then per[p.holder] else Holding(0, 0);
    next := holdings[p.promo := per[p.holder := Holding(h.credited + p.credited, h.remaining + p.remaining)]];
    TableRaised(ps, p, promos);
  }

  method HoldEntry(holdings: map<Uid, map<Uid, Holding>>, e: Entry, ghost ps: seq<Posting>, ghost promos: set<Uid>)
    returns (next: map<Uid, map<Uid, Holding>>)
    requires e.promo in promos && holdings == Table(ps, promos)
    ensures next == Table(ps + Posted(e), promos)
  {
    next := holdings;
    if e.kind == Intake {
      next := Hold(next, Posting(e.promo, e.from, e.qty, e.qty), ps, promos);
      return;
    }
    ghost var qs := ps;
    if e.kind == Assignment && e.to.Some? && e.to.value != "" {
      next := Hold(next, Posting(e.promo, e.to.value, e.qty, e.qty), ps, promos);
      qs := ps + [Posting(e.promo, e.to.value, e.qty, e.qty)];
    }
    next := Hold(next, Posting(e.promo, e.from, 0, -e.qty), qs, promos);
    assert qs + [Posting(e.promo, e.from, 0, -e.qty)] == ps + Posted(e);
  }

  method Aggregate(promos: set<Uid>, entries: seq<Entry>, reports: seq<Attribution>)
    returns (holdings: map<Uid, map<Uid, Holding>>)
    requires forall e :: e in entries ==> e.promo in promos
    requires forall a :: a in reports ==> a.promo in promos
    ensures holdings == Table(Postings(entries, reports), promos)
  {
    holdings := map u | u in promos :: map[];
    ghost var ps: seq<Posting> := [];
    for n := 0 to |entries|
      invariant ps == LedgerPostings(entries[..n]) && holdings == Table(ps, promos)
    {
      assert entries[..n + 1][..n] == entries[..n];
      holdings := HoldEntry(holdings, entries[n], ps, promos);
      ps := ps + Posted(entries[n]);
    }
    assert entries[..|entries|] == entries;
    for n := 0 to |reports|
      invariant ps == LedgerPostings(entries) + ReportPostings(reports[..n]) && holdings == Table(ps, promos)
    {
      assert reports[..n + 1][..n] == reports[..n];
      holdings := Hold(holdings, Charged(reports[n]), ps, promos);
      ps := ps + [Charged(reports[n])];
    }
    assert reports[..|reports|] == reports;
  }

  // ---- Only the promo's own rows matter, in any order -------------------------------

  function EntriesOf(ledger: seq<Entry>, promos: set<Uid>): (r: seq<Entry>)
    ensures forall e :: e in r ==> e.promo in promos
  {
    if ledger == [] then []
    else
      var e := ledger[|ledger| - 1];
      EntriesOf(ledger[..|ledger| - 1], promos) + (if e.promo in promos then [e] else [])
  }

  function ReportsOf(reports: seq<Attribution>, promos: set<Uid>): (r: seq<Attribution>)
    ensures forall a :: a in r ==> a.promo in promos
  {
    if reports == [] then []
    else
      var a := reports[|reports| - 1];
      ReportsOf(reports[..|reports| - 1], promos) + (if a.promo in promos then [a] else [])
  }

  /** What a ledger row, and then the whole ledger, does to one holder of a promo. */
  function RowShare(e: Entry, promo: Uid, h: Uid): Tally {
    if Targeted(e) then Plus(Share(Posted(e)[0], promo, h), Share(Posted(e)[1], promo, h))
    else Share(Posted(e)[0], promo, h)
  }

  function LedgerStock(ledger: seq<Entry>, promo: Uid, h: Uid): Tally {
    if ledger == [] then NOTHING
    else Plus(LedgerStock(Init(ledger), promo, h), RowShare(Last(ledger), promo, h))
  }

  lemma OnePosting(p: Posting, promo: Uid, h: Uid)
    ensures Stock([p], promo, h) == Share(p, promo, h)
  {
  }

  lemma TwoPostings(p: Posting, q: Posting, promo: Uid, h: Uid)
    ensures Stock([p] + [q], promo, h) == Plus(Share(p, promo, h), Share(q, promo, h))
  {
    Appended([p], q, promo, h);
    OnePosting(p, promo, h);
  }

  lemma RowIsPosted(e: Entry, promo: Uid, h: Uid)
    ensures Stock(Posted(e), promo, h) == RowShare(e, promo, h)
  {
    if Targeted(e) {
      assert Posted(e) == [Posted(e)[0]] + [Posted(e)[1]];
      TwoPostings(Posted(e)[0], Posted(e)[1], promo, h);
    } else {
      assert Posted(e) == [Posted(e)[0]];
      OnePosting(Posted(e)[0], promo, h);
    }
  }

  lemma {:induction false} LedgerStockIsStock(ledger: seq<Entry>, promo: Uid, h: Uid)
    ensures Stock(LedgerPostings(ledger), promo, h) == LedgerStock(ledger, promo, h)
    decreases |ledger|
  {
    if ledger != [] {
      var init, e := ledger[..|ledger| - 1], ledger[|ledger| - 1];
      LedgerStockIsStock(init, promo, h);
      Concatenated(LedgerPostings(init), Posted(e), promo, h);
      RowIsPosted(e, promo, h);
    }
  }

  lemma {:induction false} OtherEntries(ledger: seq<Entry>, promos: set<Uid>, promo: Uid, h: Uid)
    requires promo in promos
    ensures LedgerStock(EntriesOf(ledger, promos), promo, h) == LedgerStock(ledger, promo, h)
    decreases |ledger|
  {
    if ledger != [] {
      var init, e := ledger[..|ledger| - 1], ledger[|ledger| - 1];
      var kept := EntriesOf(init, promos);
      OtherEntries(init, promos, promo, h);
      if e.promo in promos {
        assert (kept + [e])[..|kept|] == kept;
      } else {
        assert EntriesOf(ledger, promos) == kept;
      }
    }
  }

  lemma {:induction false} OtherReports(reports: seq<Attribution>, promos: set<Uid>, promo: Uid, h: Uid)
    requires promo in promos
    ensures Stock(ReportPostings(ReportsOf(reports, promos)), promo, h) == Stock(ReportPostings(reports), promo, h)
  {
    if reports != [] {
      var init, a := reports[..|reports| - 1], reports[|reports| - 1];
      var kept := ReportsOf(init, promos);
      OtherReports(init, promos, promo, h);
      Appended(ReportPostings(init), Charged(a), promo, h);
      if a.promo in promos {
        assert ReportsOf(reports, promos)[..|kept|] == kept;
        Appended(ReportPostings(kept), Charged(a), promo, h);
      } else {
        assert ReportsOf(reports, promos) == kept;
      }
    }
  }

  /** The rows fetched for the target promos say as much about them as all the rows. */
  lemma FetchedRowsSuffice(ledger: seq<Entry>, reports: seq<Attribution>, promos: set<Uid>)
    ensures Table(Postings(EntriesOf(ledger, promos), ReportsOf(reports, promos)), promos)
         == Table(Postings(ledger, reports), promos)
  {
    var es, rs := EntriesOf(ledger, promos), ReportsOf(reports, promos);
    forall u | u in promos
      ensures Holdings(Postings(es, rs), u) == Holdings(Postings(ledger, reports), u)
    {
      forall h
        ensures Stock(Postings(es, rs), u, h) == Stock(Postings(ledger, reports), u, h)
      {
        OtherEntries(ledger, promos, u, h);
        LedgerStockIsStock(ledger, u, h);
        LedgerStockIsStock(es, u, h);
        OtherReports(reports, promos, u, h);
        Concatenated(LedgerPostings(es), ReportPostings(rs), u, h);
        Concatenated(LedgerPostings(ledger), ReportPostings(reports), u, h);
      }
      SameHoldings(Postings(es, rs), Postings(ledger, reports), u);
    }
  }

  lemma {:induction false} RowOut(ledger: seq<Entry>, at: nat, promo: Uid, h: Uid)
    requires at < |ledger|
    ensures LedgerStock(ledger, promo, h)
         == Plus(LedgerStock(Without(ledger, at), promo, h), RowShare(ledger[at], promo, h))
    decreases |ledger|
  {
    if at == |ledger| - 1 {
      WithoutLast(ledger);
    } else {
      WithoutEarlier(ledger, at);
      RowOut(Init(ledger), at, promo, h);
    }
  }

  lemma {:induction false} RowsReordered(l1: seq<Entry>, l2: seq<Entry>, promo: Uid, h: Uid)
    requires multiset(l1) == multiset(l2)
    ensures LedgerStock(l1, promo, h) == LedgerStock(l2, promo, h)
    decreases |l1|
  {
    SameBagSameLength(l1, l2);
    if l1 != [] {
      var at := LastIsFound(l1, l2);
      RowsReordered(Init(l1), Without(l2, at), promo, h);
      RowOut(l2, at, promo, h);
    }
  }

  /** The holdings do not depend on the order of the ledger. */
  lemma HoldingsIgnoreOrder(l1: seq<Entry>, l2: seq<Entry>, reports: seq<Attribution>, promo: Uid)
    requires multiset(l1) == multiset(l2)
    ensures Holdings(Postings(l1, reports), promo) == Holdings(Postings(l2, reports), promo)
  {
    forall h
      ensures Stock(Postings(l1, reports), promo, h) == Stock(Postings(l2, reports), promo, h)
    {
      RowsReordered(l1, l2, promo, h);
      LedgerStockIsStock(l1, promo, h);
      LedgerStockIsStock(l2, promo, h);
      Concatenated(LedgerPostings(l1), ReportPostings(reports), promo, h);
      Concatenated(LedgerPostings(l2), ReportPostings(reports), promo, h);
    }
    SameHoldings(Postings(l1, reports), Postings(l2, reports), promo);
  }

  // ---- Conservation -----------------------------------------------------------------

  /** What a ledger row does to the stock of a promo taken as a whole. */
  datatype Sort = Received | Transferred | Unaddressed | Distributed

  function SortOf(e: Entry): Sort {
    match e.kind
    case Intake => Received
    case Assignment => if Targeted(e) then Transferred else Unaddressed
    case Distribution => Distributed
  }

  function Moved(ledger: seq<Entry>, promo: Uid, sort: Sort): int {
    if ledger == [] then 0
    else
      var e := ledger[|ledger| - 1];
      Moved(ledger[..|ledger| - 1], promo, sort) + (if e.promo == promo && SortOf(e) == sort then e.qty else 0)
  }

  function Reported(reports: seq<Attribution>, promo: Uid): int {
    if reports == [] then 0
    else
      var a := reports[|reports| - 1];
      Reported(reports[..|reports| - 1], promo) + (if a.promo == promo then a.qty else 0)
  }

  ghost function CreditedTo(ps: seq<Posting>, promo: Uid): Uid -> int {
    h => Stock(ps, promo, h).credited
  }

  ghost function RemainingWith(ps: seq<Posting>, promo: Uid): Uid -> int {
    h => Stock(ps, promo, h).remaining
  }

  /** Appending a posting moves the two totals by what it says. */
  lemma TotalsGrow(ps: seq<Posting>, p: Posting, promo: Uid, all: set<Uid>)
    requires p.promo == promo ==> p.holder in all
    ensures var own := p.promo == promo;
      && SumOver(all, CreditedTo(ps + [p], promo))
         == SumOver(all, CreditedTo(ps, promo)) + (if own then p.credited else 0)
      && SumOver(all, RemainingWith(ps + [p], promo))
         == SumOver(all, RemainingWith(ps, promo)) + (if own then p.remaining else 0)
  {
    var qs := ps + [p];
    forall h
      ensures Stock(qs, promo, h) == Plus(Stock(ps, promo, h), Share(p, promo, h))
    {
      Appended(ps, p, promo, h);
    }
    var dc := (h: Uid) => if p.promo == promo && p.holder == h then p.credited else 0;
    var dr := (h: Uid) => if p.promo == promo && p.holder == h then p.remaining else 0;
    SumAdd(all, CreditedTo(ps, promo), dc, CreditedTo(qs, promo));
    SumAdd(all, RemainingWith(ps, promo), dr, RemainingWith(qs, promo));
    if p.promo == promo {
      SumSingle(all, dc, p.holder);
      SumSingle(all, dr, p.holder);
    } else {
      SumZero(all, dc);
      SumZero(all, dr);
    }
  }

  /** Every holder the postings name for the promo is in `all`. */
  ghost predicate Covered(ps: seq<Posting>, promo: Uid, all: set<Uid>) {
    forall n :: 0 <= n < |ps| && ps[n].promo == promo ==> ps[n].holder in all
  }

  lemma TransferConserves(ps: seq<Posting>, p: Posting, q: Posting, promo: Uid, all: set<Uid>)
    requires p.promo == q.promo && (p.promo == promo ==> p.holder in all && q.holder in all)
    ensures var own, next := p.promo == promo, ps + [p] + [q];
      && SumOver(all, CreditedTo(next, promo))
         == SumOver(all, CreditedTo(ps, promo)) + (if own then p.credited + q.credited else 0)
      && SumOver(all, RemainingWith(next, promo))
         == SumOver(all, RemainingWith(ps, promo)) + (if own then p.remaining + q.remaining else 0)
  {
    TotalsGrow(ps, p, promo, all);
    TotalsGrow(ps + [p], q, promo, all);
  }

  lemma TargetedConserves(ps: seq<Posting>, e: Entry, promo: Uid, all: set<Uid>)
    requires Targeted(e) && Covered(Posted(e), promo, all)
    ensures SumOver(all, CreditedTo(ps + Posted(e), promo))
         == SumOver(all, CreditedTo(ps, promo)) + (if e.promo == promo then e.qty else 0)
    ensures SumOver(all, RemainingWith(ps + Posted(e), promo)) == SumOver(all, RemainingWith(ps, promo))
  {
    var p, q := Posting(e.promo, e.to.value, e.qty, e.qty), Posting(e.promo, e.from, 0, -e.qty);
    assert Posted(e) == [p, q] && Posted(e)[0] == p && Posted(e)[1] == q;
    assert ps + Posted(e) == ps + [p] + [q];
    TransferConserves(ps, p, q, promo, all);
  }

  lemma OtherConserves(ps: seq<Posting>, e: Entry, p: Posting, promo: Uid, all: set<Uid>)
    requires Posted(e) == [p] && Covered([p], promo, all)
    ensures var own := p.promo == promo;
      && SumOver(all, CreditedTo(ps + Posted(e), promo))
         == SumOver(all, CreditedTo(ps, promo)) + (if own then p.credited else 0)
      && SumOver(all, RemainingWith(ps + Posted(e), promo))
         == SumOver(all, RemainingWith(ps, promo)) + (if own then p.remaining else 0)
  {
    assert [p][0] == p;
    TotalsGrow(ps, p, promo, all);
  }

  lemma RowConserves(ps: seq<Posting>, e: Entry, promo: Uid, all: set<Uid>)
    requires Covered(Posted(e), promo, all)
    ensures SumOver(all, CreditedTo(ps + Posted(e), promo)) == SumOver(all, CreditedTo(ps, promo))
      + (if e.promo == promo && (SortOf(e) == Received || SortOf(e) == Transferred) then e.qty else 0)
    ensures SumOver(all, RemainingWith(ps + Posted(e), promo)) == SumOver(all, RemainingWith(ps, promo))
      + (if e.promo != promo || SortOf(e) == Transferred then 0 else if SortOf(e) == Received then e.qty else -e.qty)
  {
    if Targeted(e) {
      TargetedConserves(ps, e, promo, all);
    } else if e.kind == Intake {
      OtherConserves(ps, e, Posting(e.promo, e.from, e.qty, e.qty), promo, all);
    } else {
      assert Posted(e) == [Posting(e.promo, e.from, 0, -e.qty)];
      OtherConserves(ps, e, Posting(e.promo, e.from, 0, -e.qty), promo, all);
    }
  }

  lemma {:induction false} LedgerConserves(ledger: seq<Entry>, promo: Uid, all: set<Uid>)
    requires Covered(LedgerPostings(ledger), promo, all)
    ensures SumOver(all, CreditedTo(LedgerPostings(ledger), promo))
         == Moved(ledger, promo, Received) + Moved(ledger, promo, Transferred)
    ensures SumOver(all, RemainingWith(LedgerPostings(ledger), promo))
         == Moved(ledger, promo, Received) - Moved(ledger, promo, Unaddressed) - Moved(ledger, promo, Distributed)
  {
    if ledger == [] {
      SumZero(all, CreditedTo([], promo));
      SumZero(all, RemainingWith([], promo));
    } else {
      var init, e := ledger[..|ledger| - 1], ledger[|ledger| - 1];
      var ps := LedgerPostings(init);
      CoveredParts(ps, Posted(e), promo, all);
      LedgerConserves(init, promo, all);
      RowConserves(ps, e, promo, all);
    }
  }

  lemma CoveredParts(ps: seq<Posting>, qs: seq<Posting>, promo: Uid, all: set<Uid>)
    requires Covered(ps + qs, promo, all)
    ensures Covered(ps, promo, all) && Covered(qs, promo, all)
  {
    forall n | 0 <= n < |ps| && ps[n].promo == promo
      ensures ps[n].holder in all
    {
      assert (ps + qs)[n] == ps[n];
    }
    forall n | 0 <= n < |qs| && qs[n].promo == promo
      ensures qs[n].holder in all
    {
      assert (ps + qs)[|ps| + n] == qs[n];
    }
  }

  /** Summed over its holders, a promo's remaining stock is what came in less what
      was distributed, given away without a target or charged to a tournament; its
      credited stock is what came in or was assigned to somebody. Corrections and
      assignments to oneself are no exception. */
  lemma {:induction false} Conservation(ledger: seq<Entry>, reports: seq<Attribution>, promo: Uid, all: set<Uid>)
    requires Covered(Postings(ledger, reports), promo, all)
    ensures SumOver(all, CreditedTo(Postings(ledger, reports), promo))
         == Moved(ledger, promo, Received) + Moved(ledger, promo, Transferred)
    ensures SumOver(all, RemainingWith(Postings(ledger, reports), promo))
         == Moved(ledger, promo, Received) - Moved(ledger, promo, Distributed)
          - Moved(ledger, promo, Unaddressed) - Reported(reports, promo)
    decreases |reports|
  {
    if reports == [] {
      assert Postings(ledger, []) == LedgerPostings(ledger);
      LedgerConserves(ledger, promo, all);
    } else {
      var init, p := reports[..|reports| - 1], Charged(reports[|reports| - 1]);
      assert Postings(ledger, reports) == Postings(ledger, init) + [p];
      CoveredParts(Postings(ledger, init), [p], promo, all);
      assert [p][0] == p;
      Conservation(ledger, init, promo, all);
      TotalsGrow(Postings(ledger, init), p, promo, all);
    }
  }
}

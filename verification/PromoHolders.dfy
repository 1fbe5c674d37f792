/** What a promo's ledger and the tournaments' reports leave each holder, in the ledger's own
    terms, and that the stored rows say so after a recompute. */
module PromoHolders {
  import opened Base
  import opened Lists
  import opened PromoConvergence
  import opened PromoLedger
  import opened PromoStock

  /** The quantities of the ledger rows that satisfy a description, added up. */
  ghost function Quantity(ledger: seq<Entry>, counts: Entry -> bool): int {
    if ledger == [] then 0
    else Quantity(Init(ledger), counts) + if counts(Last(ledger)) then Last(ledger).qty else 0
  }

  ghost function Intakes(promo: Uid, h: Uid): Entry -> bool {
    (e: Entry) => e.promo == promo && e.kind == Intake && e.from == h
  }

  /** An empty target is no target. */
  ghost function AssignedTo(promo: Uid, h: Uid): Entry -> bool {
    (e: Entry) => e.promo == promo && e.kind == Assignment && e.to == Some(h) && h != ""
  }

  ghost function AssignedBy(promo: Uid, h: Uid): Entry -> bool {
    (e: Entry) => e.promo == promo && e.kind == Assignment && e.from == h
  }

  ghost function DistributedBy(promo: Uid, h: Uid): Entry -> bool {
    (e: Entry) => e.promo == promo && e.kind == Distribution && e.from == h
  }

  ghost function ChargedTo(reports: seq<Attribution>, promo: Uid, h: Uid): int {
    if reports == [] then 0
    else
      var a := Last(reports);
      ChargedTo(Init(reports), promo, h) + if Charges(a, promo, h) then a.qty else 0
  }

  /** The holder was credited with his intakes and what was assigned to him. */
  ghost function CreditOf(ledger: seq<Entry>, promo: Uid, h: Uid): int {
    Quantity(ledger, Intakes(promo, h)) + Quantity(ledger, AssignedTo(promo, h))
  }

  /** And has left that, less what he assigned or distributed, to whomever, and what was charged to him. */
  ghost function LeftWith(ledger: seq<Entry>, reports: seq<Attribution>, promo: Uid, h: Uid): int {
    CreditOf(ledger, promo, h) - Quantity(ledger, AssignedBy(promo, h)) - Quantity(ledger, DistributedBy(promo, h))
    - ChargedTo(reports, promo, h)
  }

  /** The ledger row takes from him or gives to him. */
  predicate Concerns(e: Entry, promo: Uid, h: Uid) {
    e.promo == promo && (e.from == h || (e.kind == Assignment && e.to == Some(h) && h != ""))
  }

  predicate Charges(a: Attribution, promo: Uid, h: Uid) {
    a.promo == promo && a.holder == h
  }

  ghost predicate SomeRowConcerns(ledger: seq<Entry>, promo: Uid, h: Uid) {
    exists e :: e in ledger && Concerns(e, promo, h)
  }

  ghost predicate SomeReportCharges(reports: seq<Attribution>, promo: Uid, h: Uid) {
    exists a :: a in reports && Charges(a, promo, h)
  }

  ghost predicate Involved(ledger: seq<Entry>, reports: seq<Attribution>, promo: Uid, h: Uid) {
    SomeRowConcerns(ledger, promo, h) || SomeReportCharges(reports, promo, h)
  }

  lemma RowInWords(e: Entry, promo: Uid, h: Uid)
    ensures var share := RowShare(e, promo, h);
            && share.credited == (if Intakes(promo, h)(e) || AssignedTo(promo, h)(e) then e.qty else 0)
            && share.remaining == share.credited
                 - (if AssignedBy(promo, h)(e) || DistributedBy(promo, h)(e) then e.qty else 0)
  {
  }

  lemma {:induction false} LedgerInWords(ledger: seq<Entry>, promo: Uid, h: Uid)
    ensures LedgerStock(ledger, promo, h).credited == CreditOf(ledger, promo, h)
    ensures LedgerStock(ledger, promo, h).remaining == LeftWith(ledger, [], promo, h)
    decreases |ledger|
  {
    if ledger != [] {
      LedgerInWords(Init(ledger), promo, h);
      RowInWords(Last(ledger), promo, h);
    }
  }

  lemma OneRowMore(ledger: seq<Entry>, e: Entry, promo: Uid, h: Uid)
    ensures SomeRowConcerns(ledger + [e], promo, h) <==> SomeRowConcerns(ledger, promo, h) || Concerns(e, promo, h)
  {
    assert forall x :: x in ledger + [e] <==> x in ledger || x == e;
  }

  lemma RowNames(e: Entry, promo: Uid, h: Uid)
    ensures RowShare(e, promo, h).named <==> Concerns(e, promo, h)
  {
  }

  lemma {:induction false} LedgerNames(ledger: seq<Entry>, promo: Uid, h: Uid)
    ensures LedgerStock(ledger, promo, h).named <==> SomeRowConcerns(ledger, promo, h)
    decreases |ledger|
  {
    if ledger != [] {
      LedgerNames(Init(ledger), promo, h);
      RowNames(Last(ledger), promo, h);
      assert ledger == Init(ledger) + [Last(ledger)];
      OneRowMore(Init(ledger), Last(ledger), promo, h);
    }
  }

  lemma {:induction false} ReportsInWords(reports: seq<Attribution>, promo: Uid, h: Uid)
    ensures Stock(ReportPostings(reports), promo, h).credited == 0
    ensures Stock(ReportPostings(reports), promo, h).remaining == -ChargedTo(reports, promo, h)
    decreases |reports|
  {
    if reports != [] {
      ReportsInWords(Init(reports), promo, h);
      Appended(ReportPostings(Init(reports)), Charged(Last(reports)), promo, h);
    }
  }

  lemma OneReportMore(reports: seq<Attribution>, a: Attribution, promo: Uid, h: Uid)
    ensures SomeReportCharges(reports + [a], promo, h)
       <==> SomeReportCharges(reports, promo, h) || Charges(a, promo, h)
  {
    assert forall x :: x in reports + [a] <==> x in reports || x == a;
  }

  lemma {:induction false} ReportsName(reports: seq<Attribution>, promo: Uid, h: Uid)
    ensures Stock(ReportPostings(reports), promo, h).named <==> SomeReportCharges(reports, promo, h)
    decreases |reports|
  {
    if reports != [] {
      ReportsName(Init(reports), promo, h);
      Appended(ReportPostings(Init(reports)), Charged(Last(reports)), promo, h);
      assert reports == Init(reports) + [Last(reports)];
      OneReportMore(Init(reports), Last(reports), promo, h);
    }
  }

  /** What he has been tallied with over the ledger and the reports, in words. */
  lemma TallyInWords(ledger: seq<Entry>, reports: seq<Attribution>, promo: Uid, h: Uid)
    ensures var tally := Stock(Postings(ledger, reports), promo, h);
            && (tally.named <==> Involved(ledger, reports, promo, h))
            && tally.credited == CreditOf(ledger, promo, h)
            && tally.remaining == LeftWith(ledger, reports, promo, h)
  {
    Concatenated(LedgerPostings(ledger), ReportPostings(reports), promo, h);
    LedgerStockIsStock(ledger, promo, h);
    LedgerInWords(ledger, promo, h);
    LedgerNames(ledger, promo, h);
    ReportsInWords(reports, promo, h);
    ReportsName(reports, promo, h);
  }

  /** The holdings of a promo are of everyone the ledger or a report involves, and say of each what
      he was credited with and what he has left. */
  lemma HoldersGetTheirs(ledger: seq<Entry>, reports: seq<Attribution>, promo: Uid, h: Uid)
    ensures var holdings := Holdings(Postings(ledger, reports), promo);
            && (h in holdings <==> Involved(ledger, reports, promo, h))
            && (h in holdings ==>
                  holdings[h] == Holding(CreditOf(ledger, promo, h), LeftWith(ledger, reports, promo, h)))
  {
    HoldersAreNamed(Postings(ledger, reports), promo, h);
    TallyInWords(ledger, reports, promo, h);
  }

  /** After a recompute a target promo's stored row names everyone involved with it, with what he was
      credited with and has left, and a live user's row says of it what he has left, or nothing. */
  lemma RowsSayWhatIsHeld(ledger: seq<Entry>, reports: seq<Attribution>, rows: Rows, wanted: Option<set<Uid>>,
                          promo: Uid, h: Uid)
    requires promo in rows.promos && !rows.promos[promo].deleted && (wanted.Some? ==> promo in wanted.value)
    ensures var after := Recomputed(Postings(ledger, reports), rows, wanted);
            var involved, left := Involved(ledger, reports, promo, h), LeftWith(ledger, reports, promo, h);
            && (h in after.promos[promo].holdings <==> involved)
            && (involved ==> after.promos[promo].holdings[h] == Holding(CreditOf(ledger, promo, h), left))
            && (h in rows.users && !rows.users[h].deleted ==>
                  && (promo in after.users[h].stock <==> involved)
                  && (involved ==> after.users[h].stock[promo] == left))
  {
    HoldersGetTheirs(ledger, reports, promo, h);
    if h in rows.users && !rows.users[h].deleted {
      Transposed(Postings(ledger, reports), rows, wanted, promo, h);
    }
  }
}

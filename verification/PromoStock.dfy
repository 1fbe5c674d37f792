/** promo_stock.py: the recompute of Promo.holdings and User.promo_stock. */
module PromoStock {
  import opened Base
  import opened PromoLedger

  /** `catalog` and `profile` stand for every other field of the two records. */
  datatype Promo = Promo(catalog: Json, holdings: map<Uid, Holding>, deleted: bool)
  datatype User = User(profile: Json, stock: map<Uid, int>, deleted: bool)

  /** The denormalised state: promo and user rows, soft-deleted ones included. */
  datatype Rows = Rows(promos: map<Uid, Promo>, users: map<Uid, User>)

  type Aggregates = map<Uid, map<Uid, Holding>>

  // ---- What one recompute makes of the rows -----------------------------------------

  function LivePromos(promos: map<Uid, Promo>): set<Uid> {
    set u | u in promos && !promos[u].deleted
  }

  /** The promos a recompute covers; None stands for all of them. */
  function Targets(promos: map<Uid, Promo>, wanted: Option<set<Uid>>): set<Uid> {
    if wanted.None? then LivePromos(promos) else LivePromos(promos) * wanted.value
  }

  /** What one holder has left of the promos among `done`. */
  function StockOf(holdings: Aggregates, done: set<Uid>, holder: Uid): map<Uid, int> {
    map u | u in done && u in holdings && holder in holdings[u] :: holdings[u][holder].remaining
  }

  predicate HasKey(stock: map<Uid, int>, targets: set<Uid>) {
    stock.Keys * targets != {}
  }

  /** Holders of a target are revisited whatever their state; a stale key alone
      brings back only a live user. */
  predicate Visited(holdings: Aggregates, holder: Uid, user: User) {
    StockOf(holdings, holdings.Keys, holder) != map[] || (!user.deleted && HasKey(user.stock, holdings.Keys))
  }

  /** A stored stock with its target keys replaced by what is held. */
  function Merged(stock: map<Uid, int>, held: map<Uid, int>, targets: set<Uid>): map<Uid, int> {
    map u | u in stock.Keys + targets && (u in targets ==> u in held) ::
      if u in targets then held[u] else stock[u]
  }

  function NewPromos(holdings: Aggregates, promos: map<Uid, Promo>): map<Uid, Promo> {
    map u | u in promos :: if u in holdings then promos[u].(holdings := holdings[u]) else promos[u]
  }

  function NewUser(holdings: Aggregates, x: Uid, user: User): User {
    if Visited(holdings, x, user)
    then user.(stock := Merged(user.stock, StockOf(holdings, holdings.Keys, x), holdings.Keys))
    else user
  }

  function NewUsers(holdings: Aggregates, users: map<Uid, User>): map<Uid, User> {
    map x | x in users :: NewUser(holdings, x, users[x])
  }

  function Recomputed(ps: seq<Posting>, rows: Rows, wanted: Option<set<Uid>>): Rows {
    var holdings := Table(ps, Targets(rows.promos, wanted));
    Rows(NewPromos(holdings, rows.promos), NewUsers(holdings, rows.users))
  }

  datatype Save = PromoSaved(uid: Uid) | UserSaved(uid: Uid)

  /** The rows that differ between two states: the ones that have to be written. */
  ghost function PromosChanged(before: map<Uid, Promo>, after: map<Uid, Promo>): set<Save> {
    set u | u in before && u in after && before[u] != after[u] :: PromoSaved(u)
  }

  ghost function UsersChanged(before: map<Uid, User>, after: map<Uid, User>): set<Save> {
    set x | x in before && x in after && before[x] != after[x] :: UserSaved(x)
  }

  // ---- Steps of the loops -----------------------------------------------------------

  /** Promo rows with the aggregates of all but `rest` written. */
  function PromosSoFar(before: map<Uid, Promo>, holdings: Aggregates, rest: set<Uid>): map<Uid, Promo> {
    map u | u in before :: if u in holdings && u !in rest then before[u].(holdings := holdings[u]) else before[u]
  }

  lemma PromoWritten(before: map<Uid, Promo>, holdings: Aggregates, rest: set<Uid>, u: Uid)
    requires u in rest && u in holdings && u in before
    ensures var now, next := PromosSoFar(before, holdings, rest), PromosSoFar(before, holdings, rest - {u});
      && next == now[u := now[u].(holdings := holdings[u])]
      && now[u] == before[u]
      && PromoSaved(u) !in PromosChanged(before, now)
      && PromosChanged(before, next)
         == PromosChanged(before, now) + (if before[u].holdings != holdings[u] then {PromoSaved(u)} else {})
  {
    var now, next := PromosSoFar(before, holdings, rest), PromosSoFar(before, holdings, rest - {u});
    assert next == now[u := now[u].(holdings := holdings[u])];
    forall w
      ensures w in PromosChanged(before, next)
        <==> w in PromosChanged(before, now) || (w == PromoSaved(u) && before[u].holdings != holdings[u])
    {
    }
  }

  /** User rows with the stocks of all but `rest` written. */
  function UsersSoFar(before: map<Uid, User>, stocks: map<Uid, map<Uid, int>>, targets: set<Uid>, rest: set<Uid>):
    map<Uid, User>
  {
    map x | x in before ::
      if x in stocks && x !in rest then before[x].(stock := Merged(before[x].stock, stocks[x], targets)) else before[x]
  }

  lemma UserWritten(before: map<Uid, User>, stocks: map<Uid, map<Uid, int>>, targets: set<Uid>, rest: set<Uid>, x: Uid)
    requires x in rest && x in stocks && x in before
    ensures var now, next := UsersSoFar(before, stocks, targets, rest), UsersSoFar(before, stocks, targets, rest - {x});
      var merged := Merged(before[x].stock, stocks[x], targets);
      && next == now[x := now[x].(stock := merged)]
      && now[x] == before[x]
      && UserSaved(x) !in UsersChanged(before, now)
      && UsersChanged(before, next)
         == UsersChanged(before, now) + (if before[x].stock != merged then {UserSaved(x)} else {})
  {
    var now, next := UsersSoFar(before, stocks, targets, rest), UsersSoFar(before, stocks, targets, rest - {x});
    var merged := Merged(before[x].stock, stocks[x], targets);
    assert next == now[x := now[x].(stock := merged)];
    forall w
      ensures w in UsersChanged(before, next)
        <==> w in UsersChanged(before, now) || (w == UserSaved(x) && before[x].stock != merged)
    {
    }
  }

  lemma NothingChanged(promos: map<Uid, Promo>, users: map<Uid, User>)
    ensures PromosChanged(promos, promos) == {} && UsersChanged(users, users) == {}
  {
  }

  lemma MergedStep(stock: map<Uid, int>, held: map<Uid, int>, done: set<Uid>, u: Uid)
    ensures Merged(stock, held, done + {u})
      == if u in held then Merged(stock, held, done)[u := held[u]] else Merged(stock, held, done) - {u}
  {
  }

  /** Replaces the target keys of one stored stock. */
  method Merge(stock: map<Uid, int>, held: map<Uid, int>, targets: set<Uid>) returns (merged: map<Uid, int>)
    ensures merged == Merged(stock, held, targets)
  {
    merged := stock;
    var rest := targets;
    assert Merged(stock, held, targets - rest) == stock;
    while rest != {}
      invariant rest <= targets
      invariant merged == Merged(stock, held, targets - rest)
      decreases rest
    {
      var u :| u in rest;
      MergedStep(stock, held, targets - rest, u);
      assert targets - rest + {u} == targets - (rest - {u});
      rest := rest - {u};
      if u in held {
        merged := merged[u := held[u]];
      } else {
        merged := merged - {u};
      }
    }
    assert targets - rest == targets;
  }

  function HoldersOf(holdings: Aggregates, done: set<Uid>): set<Uid> {
    set u, x | u in done && u in holdings && x in holdings[u] :: x
  }

  function Stocks(holdings: Aggregates, done: set<Uid>): map<Uid, map<Uid, int>> {
    map x | x in HoldersOf(holdings, done) :: StockOf(holdings, done, x)
  }

  lemma HoldersHaveStock(holdings: Aggregates, done: set<Uid>, x: Uid)
    ensures x in HoldersOf(holdings, done) <==> StockOf(holdings, done, x) != map[]
  {
    var stock := StockOf(holdings, done, x);
    if x in HoldersOf(holdings, done) {
      var u :| u in done && u in holdings && x in holdings[u];
      assert u in stock;
    } else {
      assert stock.Keys == {};
    }
  }

  /** The stocks once the holders among `seen` of promo u are entered. */
  function Entered(stocks: map<Uid, map<Uid, int>>, u: Uid, per: map<Uid, Holding>, seen: set<Uid>):
    map<Uid, map<Uid, int>>
  {
    map x | x in stocks.Keys + (seen * per.Keys) ::
      var mine := if x in stocks then stocks[x] else map[];
      if x in seen && x in per then mine[u := per[x].remaining] else mine
  }

  method Enter(stocks: map<Uid, map<Uid, int>>, u: Uid, per: map<Uid, Holding>)
    returns (next: map<Uid, map<Uid, int>>)
    ensures next == Entered(stocks, u, per, per.Keys)
  {
    next := stocks;
    var rest := per.Keys;
    assert next == Entered(stocks, u, per, per.Keys - rest);
    while rest != {}
      invariant rest <= per.Keys
      invariant next == Entered(stocks, u, per, per.Keys - rest)
      decreases rest
    {
      var x :| x in rest;
      var mine := if x in next then next[x] else map[];
      next := next[x := mine[u := per[x].remaining]];
      assert next == Entered(stocks, u, per, per.Keys - (rest - {x}));
      rest := rest - {x};
    }
    assert per.Keys - rest == per.Keys;
  }

  lemma StockStep(holdings: Aggregates, done: set<Uid>, u: Uid, x: Uid)
    requires u in holdings
    ensures StockOf(holdings, done + {u}, x) ==
      if x in holdings[u] then StockOf(holdings, done, x)[u := holdings[u][x].remaining]
      else StockOf(holdings, done - {u}, x)
  {
  }

  lemma EnteredIsNext(holdings: Aggregates, done: set<Uid>, u: Uid)
    requires u in holdings && u !in done
    ensures Entered(Stocks(holdings, done), u, holdings[u], holdings[u].Keys) == Stocks(holdings, done + {u})
  {
    var next := Entered(Stocks(holdings, done), u, holdings[u], holdings[u].Keys);
    assert done - {u} == done;
    forall x
      ensures x in next <==> x in Stocks(holdings, done + {u})
      ensures x in next ==> next[x] == Stocks(holdings, done + {u})[x]
    {
      HoldersHaveStock(holdings, done, x);
      StockStep(holdings, done, u, x);
      HoldersHaveStock(holdings, done + {u}, x);
    }
  }

  method HeldStocks(holdings: Aggregates) returns (stocks: map<Uid, map<Uid, int>>)
    ensures stocks == Stocks(holdings, holdings.Keys)
  {
    stocks := map[];
    var rest := holdings.Keys;
    assert Stocks(holdings, holdings.Keys - rest) == map[];
    while rest != {}
      invariant rest <= holdings.Keys
      invariant stocks == Stocks(holdings, holdings.Keys - rest)
      decreases rest
    {
      var u :| u in rest;
      EnteredIsNext(holdings, holdings.Keys - rest, u);
      assert holdings.Keys - rest + {u} == holdings.Keys - (rest - {u});
      stocks := Enter(stocks, u, holdings[u]);
      rest := rest - {u};
    }
    assert holdings.Keys - rest == holdings.Keys;
  }

  function StaleUsers(users: map<Uid, User>, targets: set<Uid>): set<Uid> {
    set x | x in users && !users[x].deleted && HasKey(users[x].stock, targets)
  }

  /** The users to revisit, each with what he now holds of the target promos. */
  function Revisited(holdings: Aggregates, users: map<Uid, User>): map<Uid, map<Uid, int>> {
    var held := Stocks(holdings, holdings.Keys);
    map x | x in held.Keys + StaleUsers(users, holdings.Keys) :: if x in held then held[x] else map[]
  }

  method UserStocks(holdings: Aggregates, users: map<Uid, User>) returns (stocks: map<Uid, map<Uid, int>>)
    ensures stocks == Revisited(holdings, users)
  {
    stocks := HeldStocks(holdings);
    var stale := StaleUsers(users, holdings.Keys);
    stocks := map x | x in stocks.Keys + stale :: if x in stocks then stocks[x] else map[];
  }

  lemma RevisitedIsNew(holdings: Aggregates, users: map<Uid, User>, stocks: map<Uid, map<Uid, int>>)
    requires stocks == Revisited(holdings, users)
    ensures UsersSoFar(users, stocks, holdings.Keys, {}) == NewUsers(holdings, users)
  {
    forall x | x in users
      ensures x in stocks <==> Visited(holdings, x, users[x])
      ensures x in stocks ==> stocks[x] == StockOf(holdings, holdings.Keys, x)
    {
      HoldersHaveStock(holdings, holdings.Keys, x);
    }
  }

  // ---- The store --------------------------------------------------------------------

  class Store {
    var promos: map<Uid, Promo>
    var users: map<Uid, User>
    var ledger: seq<Entry>
    var reports: seq<Attribution>

    constructor (promos: map<Uid, Promo>, users: map<Uid, User>, ledger: seq<Entry>, reports: seq<Attribution>)
      ensures this.promos == promos && this.users == users
      ensures this.ledger == ledger && this.reports == reports
    {
      this.promos := promos;
      this.users := users;
      this.ledger := ledger;
      this.reports := reports;
    }

    ghost function State(): Rows
      reads this
    {
      Rows(promos, users)
    }

    ghost function Sources(): seq<Posting>
      reads this
    {
      Postings(ledger, reports)
    }

    /** Writes the aggregates that moved, one promo row at a time. */
    method SavePromos(holdings: Aggregates) returns (written: set<Save>)
      requires holdings.Keys <= promos.Keys
      modifies this`promos
      ensures promos == NewPromos(holdings, old(promos))
      ensures written == PromosChanged(old(promos), promos)
    {
      var rest := holdings.Keys;
      ghost var before := promos;
      written := {};
      NothingChanged(promos, users);
      assert promos == PromosSoFar(before, holdings, rest);
      while rest != {}
        invariant rest <= holdings.Keys
        invariant promos == PromosSoFar(before, holdings, rest)
        invariant written == PromosChanged(before, promos)
        decreases rest
      {
        var u :| u in rest;
        PromoWritten(before, holdings, rest, u);
        if promos[u].holdings != holdings[u] {
          promos := promos[u := promos[u].(holdings := holdings[u])];
          written := written + {PromoSaved(u)};
        }
        rest := rest - {u};
      }
    }

    /** Writes the stocks that moved, one user row at a time; a holder who is not
        a user is passed over. */
    method SaveUsers(stocks: map<Uid, map<Uid, int>>, targets: set<Uid>) returns (written: set<Save>)
      modifies this`users
      ensures users == UsersSoFar(old(users), stocks, targets, {})
      ensures written == UsersChanged(old(users), users)
    {
      var rest := stocks.Keys;
      ghost var before := users;
      written := {};
      NothingChanged(promos, users);
      assert users == UsersSoFar(before, stocks, targets, rest);
      while rest != {}
        invariant rest <= stocks.Keys
        invariant users == UsersSoFar(before, stocks, targets, rest)
        invariant written == UsersChanged(before, users)
        decreases rest
      {
        var x :| x in rest;
        if x in users {
          UserWritten(before, stocks, targets, rest, x);
          var merged := Merge(users[x].stock, stocks[x], targets);
          if merged != users[x].stock {
            users := users[x := users[x].(stock := merged)];
            written := written + {UserSaved(x)};
          }
        } else {
          assert UsersSoFar(before, stocks, targets, rest) == UsersSoFar(before, stocks, targets, rest - {x});
        }
        rest := rest - {x};
      }
    }

    method FetchHoldings(targets: set<Uid>) returns (holdings: Aggregates)
      ensures holdings == Table(Sources(), targets)
    {
      var entries := EntriesOf(ledger, targets);
      var attributions := ReportsOf(reports, targets);
      holdings := Aggregate(targets, entries, attributions);
      FetchedRowsSuffice(ledger, reports, targets);
    }

    method SaveAll(holdings: Aggregates) returns (written: set<Save>)
      requires holdings.Keys <= promos.Keys
      modifies this`promos, this`users
      ensures promos == NewPromos(holdings, old(promos))
      ensures users == NewUsers(holdings, old(users))
      ensures written == PromosChanged(old(promos), promos) + UsersChanged(old(users), users)
    {
      written := SavePromos(holdings);
      var stocks := UserStocks(holdings, users);
      RevisitedIsNew(holdings, users, stocks);
      var usersWritten := SaveUsers(stocks, holdings.Keys);
      written := written + usersWritten;
    }

    /** Recomputes the wanted promos (None: all) from the ledger and the reports;
        returns the rows written. */
    method Recompute(wanted: Option<set<Uid>>) returns (written: set<Save>)
      modifies this`promos, this`users
      ensures State() == Recomputed(Sources(), old(State()), wanted)
      ensures written == PromosChanged(old(promos), promos) + UsersChanged(old(users), users)
    {
      var targets := Targets(promos, wanted);
      if targets == {} {
        NoTargets(Sources(), State());
        NothingChanged(promos, users);
        return {};
      }
      var holdings := FetchHoldings(targets);
      written := SaveAll(holdings);
    }
  }

  /** Without a target a recompute would change nothing, so it may stop at once. */
  lemma NoTargets(ps: seq<Posting>, rows: Rows)
    ensures NewPromos(Table(ps, {}), rows.promos) == rows.promos
    ensures NewUsers(Table(ps, {}), rows.users) == rows.users
  {
    var holdings := Table(ps, {});
    assert holdings == map[];
    forall x | x in rows.users
      ensures NewUser(holdings, x, rows.users[x]) == rows.users[x]
    {
      assert StockOf(holdings, holdings.Keys, x) == map[];
    }
  }
}

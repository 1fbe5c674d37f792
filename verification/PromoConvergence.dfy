/** What the promo recompute promises: from any stored state it makes the two
    indexes each other's transpose, and repeating or splitting it changes nothing. */
module PromoConvergence {
  import opened Base
  import opened PromoLedger
  import opened PromoStock

  lemma Unvisited(ps: seq<Posting>, targets: set<Uid>, x: Uid, user: User)
    requires !Visited(Table(ps, targets), x, user)
    ensures forall u :: u in targets ==> x !in Holdings(ps, u)
    ensures !user.deleted ==> user.stock.Keys * targets == {}
  {
    var holdings := Table(ps, targets);
    forall u | u in targets
      ensures x !in Holdings(ps, u)
    {
      assert x in Holdings(ps, u) <==> u in StockOf(holdings, holdings.Keys, x);
    }
    assert holdings.Keys == targets;
  }

  /** Outside the targets, the live promos wanted, nothing moves, and no field but the two indexes
      ever does. */
  lemma OthersUntouched(ps: seq<Posting>, rows: Rows, wanted: Option<set<Uid>>, u: Uid, x: Uid)
    ensures var after := Recomputed(ps, rows, wanted);
      var target := u in rows.promos && !rows.promos[u].deleted && (wanted.None? || u in wanted.value);
      && after.promos.Keys == rows.promos.Keys && after.users.Keys == rows.users.Keys
      && (u in rows.promos ==>
            && after.promos[u].catalog == rows.promos[u].catalog && after.promos[u].deleted == rows.promos[u].deleted
            && (!target ==> after.promos[u] == rows.promos[u]))
      && (x in rows.users ==>
            && after.users[x].profile == rows.users[x].profile && after.users[x].deleted == rows.users[x].deleted
            && (!target ==>
                  && (u in after.users[x].stock <==> u in rows.users[x].stock)
                  && (u in rows.users[x].stock ==> after.users[x].stock[u] == rows.users[x].stock[u])))
  {
  }

  // ---- A user whose stock is simply replaced ----------------------------------------

  lemma MergedTwice(s: map<Uid, int>, h1: map<Uid, int>, t1: set<Uid>, h2: map<Uid, int>, t2: set<Uid>,
                    h: map<Uid, int>)
    requires forall u :: u in t1 ==> (u in h1 <==> u in h) && (u in h ==> h1[u] == h[u])
    requires forall u :: u in t2 ==> (u in h2 <==> u in h) && (u in h ==> h2[u] == h[u])
    ensures Merged(Merged(s, h1, t1), h2, t2) == Merged(s, h, t1 + t2)
  {
    var once := Merged(s, h1, t1);
    forall u
      ensures u in Merged(once, h2, t2) <==> u in Merged(s, h, t1 + t2)
      ensures u in Merged(s, h, t1 + t2) ==> Merged(once, h2, t2)[u] == Merged(s, h, t1 + t2)[u]
    {
      if u !in t2 {
        assert u in once <==> u in Merged(s, h, t1 + t2);
      }
    }
  }

  /** Merging nothing held into a stock without target keys leaves it alone. */
  lemma MergedIdle(s: map<Uid, int>, h: map<Uid, int>, t: set<Uid>)
    requires forall u :: u in t ==> u !in s && u !in h
    ensures Merged(s, h, t) == s
  {
    forall u
      ensures u in Merged(s, h, t) <==> u in s
    {
    }
  }

  /** What the postings leave a holder of the promos in `targets`. */
  function Held(ps: seq<Posting>, targets: set<Uid>, x: Uid): map<Uid, int> {
    map u | u in targets && x in Holdings(ps, u) :: Holdings(ps, u)[x].remaining
  }

  lemma HeldIsStock(ps: seq<Posting>, targets: set<Uid>, x: Uid)
    ensures StockOf(Table(ps, targets), Table(ps, targets).Keys, x) == Held(ps, targets, x)
  {
  }

  /** The user's keys among the promos are all of promos he holds: nothing stale. */
  predicate Tidy(ps: seq<Posting>, live: set<Uid>, x: Uid, user: User) {
    user.stock.Keys * live <= Held(ps, live, x).Keys
  }

  function Replaced(ps: seq<Posting>, targets: set<Uid>, x: Uid, user: User): User {
    user.(stock := Merged(user.stock, Held(ps, targets, x), targets))
  }

  lemma NothingToReplace(ps: seq<Posting>, live: set<Uid>, targets: set<Uid>, x: Uid, user: User, u: Uid)
    requires targets <= live && (!user.deleted || Tidy(ps, live, x, user))
    requires !Visited(Table(ps, targets), x, user) && u in targets
    ensures u !in user.stock && u !in Held(ps, targets, x)
  {
    Unvisited(ps, targets, x, user);
    assert u in user.stock <==> u in user.stock.Keys * targets;
    assert u in user.stock <==> u in user.stock.Keys * live;
    assert u in Held(ps, live, x) <==> x in Holdings(ps, u);
  }

  lemma VisitedIsReplaced(ps: seq<Posting>, targets: set<Uid>, x: Uid, user: User)
    requires Visited(Table(ps, targets), x, user)
    ensures NewUser(Table(ps, targets), x, user) == Replaced(ps, targets, x, user)
  {
    assert Table(ps, targets).Keys == targets;
    HeldIsStock(ps, targets, x);
  }

  lemma LiveOrTidyIsReplaced(ps: seq<Posting>, live: set<Uid>, targets: set<Uid>, x: Uid, user: User)
    requires targets <= live && (!user.deleted || Tidy(ps, live, x, user))
    ensures NewUser(Table(ps, targets), x, user) == Replaced(ps, targets, x, user)
  {
    if Visited(Table(ps, targets), x, user) {
      VisitedIsReplaced(ps, targets, x, user);
    } else {
      forall u | u in targets
        ensures u !in user.stock && u !in Held(ps, targets, x)
      {
        NothingToReplace(ps, live, targets, x, user, u);
      }
      MergedIdle(user.stock, Held(ps, targets, x), targets);
    }
  }

  lemma ReplacedTwice(ps: seq<Posting>, t1: set<Uid>, t2: set<Uid>, x: Uid, user: User)
    ensures Replaced(ps, t2, x, Replaced(ps, t1, x, user)) == Replaced(ps, t1 + t2, x, user)
  {
    MergedTwice(user.stock, Held(ps, t1, x), t1, Held(ps, t2, x), t2, Held(ps, t1 + t2, x));
  }

  lemma StaysTidy(ps: seq<Posting>, live: set<Uid>, targets: set<Uid>, x: Uid, user: User)
    requires targets <= live && Tidy(ps, live, x, user)
    ensures Tidy(ps, live, x, Replaced(ps, targets, x, user))
  {
    forall u | u in Replaced(ps, targets, x, user).stock.Keys * live
      ensures u in Held(ps, live, x)
    {
      if u !in targets {
        assert u in user.stock.Keys * live;
      }
    }
  }

  /** For a target promo and a live user, the user's stock and the promo's
      holdings say the same thing. */
  lemma Transposed(ps: seq<Posting>, rows: Rows, wanted: Option<set<Uid>>, u: Uid, x: Uid)
    requires u in Targets(rows.promos, wanted) && x in rows.users && !rows.users[x].deleted
    ensures var after := Recomputed(ps, rows, wanted);
      && after.promos[u].holdings == Holdings(ps, u)
      && (u in after.users[x].stock <==> x in after.promos[u].holdings)
      && (u in after.users[x].stock ==> after.users[x].stock[u] == after.promos[u].holdings[x].remaining)
  {
    var targets := Targets(rows.promos, wanted);
    LiveOrTidyIsReplaced(ps, targets, targets, x, rows.users[x]);
  }

  // ---- Runs -------------------------------------------------------------------------

  /** The recompute treats a user alike whatever the split: he is live, or holds
      no live promo, or has no stale key among them. */
  predicate Settles(ps: seq<Posting>, live: set<Uid>, x: Uid, user: User) {
    !user.deleted || Held(ps, live, x) == map[] || Tidy(ps, live, x, user)
  }

  lemma TwoRunsAreOne(ps: seq<Posting>, live: set<Uid>, t1: set<Uid>, t2: set<Uid>, x: Uid, user: User)
    requires t1 <= live && t2 <= live && Settles(ps, live, x, user)
    ensures NewUser(Table(ps, t2), x, NewUser(Table(ps, t1), x, user)) == NewUser(Table(ps, t1 + t2), x, user)
  {
    if !user.deleted || Tidy(ps, live, x, user) {
      LiveOrTidyIsReplaced(ps, live, t1, x, user);
      if user.deleted {
        StaysTidy(ps, live, t1, x, user);
      }
      LiveOrTidyIsReplaced(ps, live, t2, x, Replaced(ps, t1, x, user));
      ReplacedTwice(ps, t1, t2, x, user);
      LiveOrTidyIsReplaced(ps, live, t1 + t2, x, user);
    } else {
      HoldsNothing(ps, live, t1, x, user);
      HoldsNothing(ps, live, t2, x, user);
      HoldsNothing(ps, live, t1 + t2, x, user);
    }
  }

  lemma HoldsNothing(ps: seq<Posting>, live: set<Uid>, targets: set<Uid>, x: Uid, user: User)
    requires targets <= live && user.deleted && Held(ps, live, x) == map[]
    ensures NewUser(Table(ps, targets), x, user) == user
  {
    HeldIsStock(ps, targets, x);
    forall u | u in targets
      ensures x !in Holdings(ps, u)
    {
      assert u !in Held(ps, live, x);
    }
    assert Held(ps, targets, x) == map[];
  }

  /** An immediate second run finds nothing to write. */
  lemma SecondRunChangesNothing(ps: seq<Posting>, rows: Rows, wanted: Option<set<Uid>>)
    ensures var after := Recomputed(ps, rows, wanted);
      && Recomputed(ps, after, wanted) == after
      && PromosChanged(after.promos, Recomputed(ps, after, wanted).promos) == {}
      && UsersChanged(after.users, Recomputed(ps, after, wanted).users) == {}
  {
    var after, targets := Recomputed(ps, rows, wanted), Targets(rows.promos, wanted);
    assert LivePromos(after.promos) == LivePromos(rows.promos);
    forall x | x in rows.users
      ensures NewUser(Table(ps, targets), x, after.users[x]) == after.users[x]
    {
      UserSettledOnce(ps, targets, x, rows.users[x]);
    }
    assert Recomputed(ps, after, wanted).users == after.users;
    assert Recomputed(ps, after, wanted).promos == after.promos;
  }

  lemma UserSettledOnce(ps: seq<Posting>, targets: set<Uid>, x: Uid, user: User)
    ensures var once := NewUser(Table(ps, targets), x, user); NewUser(Table(ps, targets), x, once) == once
  {
    var once := NewUser(Table(ps, targets), x, user);
    if Visited(Table(ps, targets), x, user) {
      VisitedIsReplaced(ps, targets, x, user);
      if Visited(Table(ps, targets), x, once) {
        VisitedIsReplaced(ps, targets, x, once);
        ReplacedTwice(ps, targets, targets, x, user);
        assert targets + targets == targets;
      }
    }
  }

  function Union(ws: seq<set<Uid>>): set<Uid> {
    if ws == [] then {} else Union(ws[..|ws| - 1]) + ws[|ws| - 1]
  }

  function Runs(ps: seq<Posting>, rows: Rows, ws: seq<set<Uid>>): Rows {
    if ws == [] then rows else Recomputed(ps, Runs(ps, rows, ws[..|ws| - 1]), Some(ws[|ws| - 1]))
  }

  /** A sequence of partial runs comes to one run over everything they covered:
      for every promo, and for every user who settles. */
  lemma {:induction false} RunsAddUp(ps: seq<Posting>, rows: Rows, ws: seq<set<Uid>>)
    ensures var done := Table(ps, LivePromos(rows.promos) * Union(ws));
      && Runs(ps, rows, ws).promos == NewPromos(done, rows.promos)
      && Runs(ps, rows, ws).users.Keys == rows.users.Keys
      && forall x :: x in rows.users && Settles(ps, LivePromos(rows.promos), x, rows.users[x]) ==>
           Runs(ps, rows, ws).users[x] == NewUser(done, x, rows.users[x])
    decreases |ws|
  {
    var live := LivePromos(rows.promos);
    if ws == [] {
      assert live * Union(ws) == {};
      NoTargets(ps, rows);
      assert NewUsers(Table(ps, {}), rows.users) == rows.users;
      forall x | x in rows.users
        ensures NewUser(Table(ps, {}), x, rows.users[x]) == rows.users[x]
      {
        assert NewUsers(Table(ps, {}), rows.users)[x] == NewUser(Table(ps, {}), x, rows.users[x]);
      }
    } else {
      var init, w := ws[..|ws| - 1], ws[|ws| - 1];
      var mid := Runs(ps, rows, init);
      RunsAddUp(ps, rows, init);
      var t1, t2 := live * Union(init), live * w;
      assert LivePromos(mid.promos) == live;
      assert t1 + t2 == live * Union(ws);
      assert NewPromos(Table(ps, t2), NewPromos(Table(ps, t1), rows.promos))
          == NewPromos(Table(ps, t1 + t2), rows.promos);
      forall x | x in rows.users && Settles(ps, live, x, rows.users[x])
        ensures Runs(ps, rows, ws).users[x] == NewUser(Table(ps, t1 + t2), x, rows.users[x])
      {
        TwoRunsAreOne(ps, live, t1, t2, x, rows.users[x]);
      }
    }
  }

  ghost predicate Covers(rows: Rows, ws: seq<set<Uid>>) {
    LivePromos(rows.promos) <= Union(ws)
  }

  /** Partial runs that together cover every live promo, in any order and with any
      overlap, leave all promos, and every user who settles, as one full run would. */
  lemma PartialRunsConverge(ps: seq<Posting>, rows: Rows, ws: seq<set<Uid>>)
    requires Covers(rows, ws)
    ensures var full := Recomputed(ps, rows, None);
      && Runs(ps, rows, ws).promos == full.promos
      && Runs(ps, rows, ws).users.Keys == full.users.Keys
      && forall x :: x in rows.users && Settles(ps, LivePromos(rows.promos), x, rows.users[x]) ==>
           Runs(ps, rows, ws).users[x] == full.users[x]
  {
    RunsAddUp(ps, rows, ws);
    assert LivePromos(rows.promos) * Union(ws) == LivePromos(rows.promos);
  }

  /** A soft-deleted user who holds one live promo and carries the stale key of
      another: recomputing the stale promo by itself passes him over. */
  lemma TornUserDiverges(ps: seq<Posting>, rows: Rows, x: Uid) returns (ws: seq<set<Uid>>)
    requires x in rows.users && !Settles(ps, LivePromos(rows.promos), x, rows.users[x])
    ensures Covers(rows, ws) && Runs(ps, rows, ws) != Recomputed(ps, rows, None)
  {
    var live, user := LivePromos(rows.promos), rows.users[x];
    var u :| u in user.stock.Keys * live && u !in Held(ps, live, x);
    ws := [{u}, live - {u}];
    assert ws[..1] == [{u}] && Union(ws[..1]) == {u};
    var one := Recomputed(ps, rows, Some({u}));
    assert Runs(ps, rows, ws) == Recomputed(ps, one, Some(live - {u})) by {
      assert ws[..1][..0] == [];
      assert Runs(ps, rows, ws[..1]) == one;
    }
    assert u in one.users[x].stock by {
      assert Targets(rows.promos, Some({u})) == {u};
      PassedOver(ps, live, u, x, user);
    }
    OthersUntouched(ps, one, Some(live - {u}), u, x);
    assert u !in Recomputed(ps, rows, None).users[x].stock by {
      StaleKeyDropped(ps, live, u, x, user);
    }
  }

  lemma PassedOver(ps: seq<Posting>, live: set<Uid>, u: Uid, x: Uid, user: User)
    requires user.deleted && u in live && u !in Held(ps, live, x)
    ensures NewUser(Table(ps, {u}), x, user) == user
  {
    assert Held(ps, {u}, x) == map[];
    HoldsNothing(ps, {u}, {u}, x, user);
  }

  lemma StaleKeyDropped(ps: seq<Posting>, live: set<Uid>, u: Uid, x: Uid, user: User)
    requires u in live && u !in Held(ps, live, x) && Held(ps, live, x) != map[]
    ensures u !in NewUser(Table(ps, live), x, user).stock
  {
    HeldIsStock(ps, live, x);
    assert Visited(Table(ps, live), x, user);
  }

  /** Splitting a recompute is always harmless exactly when every user settles. */
  lemma SplittingIsHarmlessIff(ps: seq<Posting>, rows: Rows)
    ensures (forall ws :: Covers(rows, ws) ==> Runs(ps, rows, ws) == Recomputed(ps, rows, None))
       <==> (forall x :: x in rows.users ==> Settles(ps, LivePromos(rows.promos), x, rows.users[x]))
  {
    if forall x :: x in rows.users ==> Settles(ps, LivePromos(rows.promos), x, rows.users[x]) {
      forall ws | Covers(rows, ws)
        ensures Runs(ps, rows, ws) == Recomputed(ps, rows, None)
      {
        PartialRunsConverge(ps, rows, ws);
        assert Runs(ps, rows, ws).users == Recomputed(ps, rows, None).users;
      }
    } else {
      var x :| x in rows.users && !Settles(ps, LivePromos(rows.promos), x, rows.users[x]);
      var ws := TornUserDiverges(ps, rows, x);
    }
  }

  lemma OneHolder(ps: seq<Posting>, promo: Uid, x: Uid)
    requires |ps| == 1
    ensures x in Holdings(ps, promo) <==> ps[0].promo == promo && ps[0].holder == x
  {
    assert Stock(ps[..0], promo, x) == NOTHING;
    HoldersAreNamed(ps, promo, x);
  }

  lemma StaleHolder(ps: seq<Posting>, live: set<Uid>, a: Uid, b: Uid, x: Uid, user: User)
    requires |ps| == 1 && ps[0].promo == a && ps[0].holder == x && a != b && a in live && b in live
    requires user.deleted && b in user.stock
    ensures !Settles(ps, live, x, user)
  {
    OneHolder(ps, a, x);
    OneHolder(ps, b, x);
    assert a in Held(ps, live, x) && b !in Held(ps, live, x);
    assert b in user.stock.Keys * live;
  }

  /** Such a user occurs: soft-deleted, holding one live promo and carrying the key of
      another that is no longer held. */
  lemma StaleHolderDiverges(ps: seq<Posting>, rows: Rows, a: Promo, b: Promo, user: User) returns (ws: seq<set<Uid>>)
    requires ps == [Posting("a", "x", 1, 1)] && !a.deleted && !b.deleted && user.deleted && "b" in user.stock
    requires rows == Rows(map["a" := a, "b" := b], map["x" := user])
    ensures Covers(rows, ws) && Runs(ps, rows, ws) != Recomputed(ps, rows, None)
  {
    var live := LivePromos(rows.promos);
    assert "a" in live && "b" in live;
    StaleHolder(ps, live, "a", "b", "x", user);
    ws := TornUserDiverges(ps, rows, "x");
  }
}

/** scripts/reconcile_twda.py: the pass that sends contested attachments back to
    the review queue. */
module Reconciliation {

  datatype Action = Attach | Create | Review

  datatype Verdict = Verdict(entry: string, action: Action, target: string, why: string)

  const TIER_STRENGTH: map<string, nat> := map[
    "own link" := 4,
    "vekn id" := 3,
    "winner+date+name" := 2,
    "winner+date+size" := 2,
    "winner+date" := 1]

  const CLAIMED := "target claimed by another entry"

  function Strength(v: Verdict): nat
    requires v.why in TIER_STRENGTH
  {
    TIER_STRENGTH[v.why]
  }

  predicate Claims(v: Verdict, target: string) {
    v.action == Attach && v.target == target
  }

  /** Some other entry attaches to the same tournament. */
  ghost predicate Contested(vs: seq<Verdict>, i: nat)
    requires i < |vs|
  {
    vs[i].action == Attach && exists j: nat :: j < |vs| && j != i && Claims(vs[j], vs[i].target)
  }

  /** Attachments come with the tier that found them. */
  ghost predicate Tiered(vs: seq<Verdict>) {
    forall i: nat :: i < |vs| && Contested(vs, i) ==> vs[i].why in TIER_STRENGTH
  }

  /** Stronger than every other claimant of the same tournament. */
  ghost predicate Strongest(vs: seq<Verdict>, i: nat)
    requires i < |vs| && Tiered(vs) && Contested(vs, i)
  {
    forall j: nat :: j < |vs| && j != i && Claims(vs[j], vs[i].target) ==>
      Contested(vs, j) && Strength(vs[j]) < Strength(vs[i])
  }

  ghost predicate Loses(vs: seq<Verdict>, i: nat)
    requires i < |vs| && Tiered(vs)
  {
    Contested(vs, i) && !Strongest(vs, i)
  }

  function Queued(v: Verdict): Verdict {
    v.(action := Review, why := CLAIMED)
  }

  ghost function Demoted(vs: seq<Verdict>): (r: seq<Verdict>)
    requires Tiered(vs)
    ensures |r| == |vs|
    ensures forall i: nat :: i < |vs| ==> r[i] == if Loses(vs, i) then Queued(vs[i]) else vs[i]
  {
    seq(|vs|, i requires 0 <= i < |vs| => if Loses(vs, i) then Queued(vs[i]) else vs[i])
  }

  ghost function Losers(vs: seq<Verdict>): set<nat>
    requires Tiered(vs)
  {
    set i: nat | i < |vs| && Loses(vs, i)
  }

  // ---- The pass ---------------------------------------------------------------------

  /** The claimants of a target among the first n verdicts, in order. */
  function Claimants(vs: seq<Verdict>, n: nat, target: string): seq<nat>
    requires n <= |vs|
  {
    if n == 0 then []
    else Claimants(vs, n - 1, target) + (if Claims(vs[n - 1], target) then [n - 1] else [])
  }

  lemma {:induction false} ClaimantsClaim(vs: seq<Verdict>, n: nat, target: string)
    requires n <= |vs|
    ensures forall i: nat :: i in Claimants(vs, n, target) <==> i < n && Claims(vs[i], target)
    decreases n
  {
    if n > 0 {
      ClaimantsClaim(vs, n - 1, target);
    }
  }

  predicate Distinct(s: seq<nat>) {
    forall a, b :: 0 <= a < b < |s| ==> s[a] != s[b]
  }

  lemma {:induction false} ClaimantsDistinct(vs: seq<Verdict>, n: nat, target: string)
    requires n <= |vs|
    ensures Distinct(Claimants(vs, n, target))
    decreases n
  {
    if n > 0 {
      ClaimantsDistinct(vs, n - 1, target);
      var before := Claimants(vs, n - 1, target);
      ClaimantsClaim(vs, n - 1, target);
      assert forall a :: 0 <= a < |before| ==> before[a] in before;
    }
  }

  function Grouped(vs: seq<Verdict>, n: nat): map<string, seq<nat>>
    requires n <= |vs|
  {
    if n == 0 then map[]
    else
      var before, v := Grouped(vs, n - 1), vs[n - 1];
      if v.action == Attach
      then before[v.target := (if v.target in before then before[v.target] else []) + [n - 1]]
      else before
  }

  lemma {:induction false} GroupsAreClaimants(vs: seq<Verdict>, n: nat, target: string)
    requires n <= |vs|
    ensures target in Grouped(vs, n) <==> Claimants(vs, n, target) != []
    ensures target in Grouped(vs, n) ==> Grouped(vs, n)[target] == Claimants(vs, n, target)
    decreases n
  {
    if n > 0 {
      GroupsAreClaimants(vs, n - 1, target);
    }
  }

  method GroupClaims(a: array<Verdict>) returns (claims: map<string, seq<nat>>)
    ensures claims == Grouped(a[..], a.Length)
  {
    claims := map[];
    for i := 0 to a.Length
      invariant claims == Grouped(a[..], i)
    {
      if a[i].action == Attach {
        var t := a[i].target;
        claims := claims[t := (if t in claims then claims[t] else []) + [i]];
      }
    }
  }

  predicate Descending(keys: seq<nat>) {
    forall x, y :: 0 <= x < y < |keys| ==> keys[x] >= keys[y]
  }

  /** The group points at verdicts that carry a tier. */
  predicate Ranks(vs: seq<Verdict>, group: seq<nat>) {
    forall n :: 0 <= n < |group| ==> group[n] < |vs| && vs[group[n]].why in TIER_STRENGTH
  }

  function Keys(vs: seq<Verdict>, group: seq<nat>): (r: seq<nat>)
    requires Ranks(vs, group)
    ensures |r| == |group|
    ensures forall n :: 0 <= n < |group| ==> r[n] == Strength(vs[group[n]])
  {
    seq(|group|, n requires 0 <= n < |group| => Strength(vs[group[n]]))
  }

  lemma InsertedDescends(keys: seq<nat>, at: nat, key: nat)
    requires Descending(keys) && at <= |keys|
    requires at > 0 ==> keys[at - 1] >= key
    requires at < |keys| ==> keys[at] <= key
    ensures Descending(keys[..at] + [key] + keys[at..])
  {
  }

  function Spliced(ranked: seq<nat>, at: nat, i: nat): seq<nat>
    requires at <= |ranked|
  {
    ranked[..at] + [i] + ranked[at..]
  }

  lemma SplicedKeys(vs: seq<Verdict>, ranked: seq<nat>, at: nat, i: nat)
    requires Ranks(vs, ranked) && at <= |ranked| && i < |vs| && vs[i].why in TIER_STRENGTH
    ensures Ranks(vs, Spliced(ranked, at, i))
    ensures Keys(vs, Spliced(ranked, at, i)) == Keys(vs, ranked)[..at] + [Strength(vs[i])] + Keys(vs, ranked)[at..]
  {
  }

  lemma SplicedBag(ranked: seq<nat>, at: nat, i: nat)
    requires at <= |ranked|
    ensures multiset(Spliced(ranked, at, i)) == multiset(ranked) + multiset{i}
  {
    assert ranked == ranked[..at] + ranked[at..];
  }

  lemma PrefixBag(group: seq<nat>, n: nat)
    requires n < |group|
    ensures multiset(group[..n + 1]) == multiset(group[..n]) + multiset{group[n]}
  {
    assert group[..n + 1] == group[..n] + [group[n]];
  }

  /** Where a verdict of strength `key` goes: behind the last that is as strong. */
  method FindPlace(vs: seq<Verdict>, ranked: seq<nat>, key: nat) returns (at: nat)
    requires Ranks(vs, ranked)
    ensures at <= |ranked|
    ensures at > 0 ==> Keys(vs, ranked)[at - 1] >= key
    ensures at < |ranked| ==> Keys(vs, ranked)[at] < key
  {
    at := |ranked|;
    while at > 0 && Strength(vs[ranked[at - 1]]) < key
      invariant 0 <= at <= |ranked|
      invariant at < |ranked| ==> Keys(vs, ranked)[at] < key
    {
      at := at - 1;
    }
  }

  /** The first n of the group, sorted. */
  ghost predicate IsRanking(vs: seq<Verdict>, group: seq<nat>, n: nat, ranked: seq<nat>)
    requires n <= |group|
  {
    multiset(ranked) == multiset(group[..n]) && Ranks(vs, ranked) && Descending(Keys(vs, ranked))
  }

  lemma RankedOneMore(vs: seq<Verdict>, group: seq<nat>, n: nat, ranked: seq<nat>, at: nat)
    requires Ranks(vs, group) && n < |group| && IsRanking(vs, group, n, ranked) && at <= |ranked|
    requires at > 0 ==> Keys(vs, ranked)[at - 1] >= Strength(vs[group[n]])
    requires at < |ranked| ==> Keys(vs, ranked)[at] < Strength(vs[group[n]])
    ensures IsRanking(vs, group, n + 1, Spliced(ranked, at, group[n]))
  {
    InsertedDescends(Keys(vs, ranked), at, Strength(vs[group[n]]));
    SplicedKeys(vs, ranked, at, group[n]);
    SplicedBag(ranked, at, group[n]);
    PrefixBag(group, n);
  }

  /** The group by descending strength: a stable insertion sort. */
  method Ranked(vs: seq<Verdict>, group: seq<nat>) returns (ranked: seq<nat>)
    requires Ranks(vs, group)
    ensures multiset(ranked) == multiset(group)
    ensures Ranks(vs, ranked) && Descending(Keys(vs, ranked))
  {
    ranked := [];
    for n := 0 to |group|
      invariant IsRanking(vs, group, n, ranked)
    {
      var at := FindPlace(vs, ranked, Strength(vs[group[n]]));
      RankedOneMore(vs, group, n, ranked, at);
      ranked := Spliced(ranked, at, group[n]);
    }
    assert group[..|group|] == group;
  }

  lemma {:induction false} DistinctCounts(s: seq<nat>, i: nat)
    requires Distinct(s)
    ensures multiset(s)[i] <= 1
    decreases |s|
  {
    if s != [] {
      var init, last := s[..|s| - 1], s[|s| - 1];
      DistinctCounts(init, i);
      assert s == init + [last];
      assert last !in init;
    }
  }

  lemma DistinctRearranged(s: seq<nat>, r: seq<nat>)
    requires Distinct(s) && multiset(r) == multiset(s)
    ensures Distinct(r) && |r| == |s| && forall i :: i in r <==> i in s
  {
    forall x, y | 0 <= x < y < |r|
      ensures r[x] != r[y]
    {
      DistinctCounts(s, r[x]);
      assert r == r[..x] + [r[x]] + r[x + 1..y] + [r[y]] + r[y + 1..];
    }
    assert |multiset(r)| == |multiset(s)|;
    forall i
      ensures i in r <==> i in s
    {
      assert i in multiset(r) <==> i in multiset(s);
    }
  }

  /** A target's group of two claimants or more is what makes each of them contested. */
  lemma GroupIsContested(vs: seq<Verdict>, target: string, i: nat)
    requires i < |vs| && Claims(vs[i], target)
    ensures var group := Claimants(vs, |vs|, target);
      && i in group
      && (Contested(vs, i) <==> |group| >= 2)
  {
    var group := Claimants(vs, |vs|, target);
    ClaimantsClaim(vs, |vs|, target);
    ClaimantsDistinct(vs, |vs|, target);
    if |group| >= 2 {
      var j := if group[0] == i then group[1] else group[0];
      assert j in group;
    }
    if Contested(vs, i) {
      var j: nat :| j < |vs| && j != i && Claims(vs[j], target);
      assert i in group && j in group;
    }
  }

  function Keep(vs: seq<Verdict>, ranked: seq<nat>): (k: nat)
    requires |ranked| >= 2 && Ranks(vs, ranked)
  {
    if Strength(vs[ranked[0]]) > Strength(vs[ranked[1]]) then ranked[0] else |vs|
  }

  /** The one kept, if any, is the strongest of the group; all others lose. */
  lemma KeepWins(vs: seq<Verdict>, target: string, ranked: seq<nat>, i: nat)
    requires Tiered(vs) && |ranked| >= 2 && Ranks(vs, ranked) && Descending(Keys(vs, ranked))
    requires multiset(ranked) == multiset(Claimants(vs, |vs|, target))
    requires i < |vs| && Claims(vs[i], target)
    ensures Contested(vs, i)
    ensures Loses(vs, i) <==> i != Keep(vs, ranked)
  {
    var group, keys := Claimants(vs, |vs|, target), Keys(vs, ranked);
    ClaimantsClaim(vs, |vs|, target);
    ClaimantsDistinct(vs, |vs|, target);
    DistinctRearranged(group, ranked);
    GroupIsContested(vs, target, i);
    var first, second := ranked[0], ranked[1];
    assert first in ranked && second in ranked && first != second;
    if i == Keep(vs, ranked) {
      forall j: nat | j < |vs| && j != i && Claims(vs[j], target)
        ensures Contested(vs, j) && Strength(vs[j]) < Strength(vs[i])
      {
        GroupIsContested(vs, target, j);
        assert j in ranked;
        var x :| 0 <= x < |ranked| && ranked[x] == j;
        assert keys[1] >= keys[x];
      }
    } else {
      assert i in ranked;
      var x :| 0 <= x < |ranked| && ranked[x] == i;
      assert keys[0] >= keys[x];
      var j := if i == first then second else first;
      assert Claims(vs[j], target) && Strength(vs[j]) >= Strength(vs[i]);
    }
  }

  ghost function GroupLosers(vs: seq<Verdict>, target: string): set<nat>
    requires Tiered(vs)
  {
    set i: nat | i < |vs| && vs[i].target == target && Loses(vs, i)
  }

  function Before(group: seq<nat>, n: nat, kept: nat): set<nat>
    requires n <= |group|
  {
    set i | i in group[..n] && i != kept
  }

  lemma BeforeGrows(group: seq<nat>, n: nat, kept: nat)
    requires n < |group| && Distinct(group)
    ensures group[n] !in Before(group, n, kept)
    ensures Before(group, n + 1, kept)
         == if group[n] == kept then Before(group, n, kept) else Before(group, n, kept) + {group[n]}
  {
    assert group[..n + 1] == group[..n] + [group[n]];
  }

  lemma GroupRanks(vs: seq<Verdict>, target: string)
    requires Tiered(vs) && |Claimants(vs, |vs|, target)| >= 2
    ensures Ranks(vs, Claimants(vs, |vs|, target))
  {
    var group := Claimants(vs, |vs|, target);
    ClaimantsClaim(vs, |vs|, target);
    forall n | 0 <= n < |group|
      ensures group[n] < |vs| && vs[group[n]].why in TIER_STRENGTH
    {
      assert group[n] in group;
      GroupIsContested(vs, target, group[n]);
    }
  }

  lemma KeptIsNotQueued(vs: seq<Verdict>, target: string, ranked: seq<nat>)
    requires Tiered(vs) && |ranked| >= 2 && Ranks(vs, ranked) && Descending(Keys(vs, ranked))
    requires multiset(ranked) == multiset(Claimants(vs, |vs|, target))
    ensures var group := Claimants(vs, |vs|, target);
      Before(group, |group|, Keep(vs, ranked)) == GroupLosers(vs, target)
  {
    var group, kept := Claimants(vs, |vs|, target), Keep(vs, ranked);
    ClaimantsClaim(vs, |vs|, target);
    assert group[..|group|] == group;
    forall i: nat
      ensures i in Before(group, |group|, kept) <==> i in GroupLosers(vs, target)
    {
      if i < |vs| && Claims(vs[i], target) {
        KeepWins(vs, target, ranked, i);
      }
    }
  }

  /** Sends every claimant of the group but the one kept back to the queue. */
  method QueueGroup(a: array<Verdict>, group: seq<nat>, kept: nat) returns (demoted: nat)
    requires Distinct(group)
    requires forall n :: 0 <= n < |group| ==> group[n] < a.Length
    modifies a
    ensures forall i: nat :: i < a.Length ==>
      a[i] == if i in Before(group, |group|, kept) then Queued(old(a[i])) else old(a[i])
    ensures demoted == |Before(group, |group|, kept)|
  {
    demoted := 0;
    for n := 0 to |group|
      invariant forall i: nat :: i < a.Length ==>
        a[i] == if i in Before(group, n, kept) then Queued(old(a[i])) else old(a[i])
      invariant demoted == |Before(group, n, kept)|
    {
      var i := group[n];
      BeforeGrows(group, n, kept);
      if i != kept {
        a[i] := Queued(a[i]);
        demoted := demoted + 1;
      }
    }
  }

  /** Two lists that agree on what a group points at rank it alike. */
  lemma SameRanks(vs: seq<Verdict>, us: seq<Verdict>, group: seq<nat>)
    requires Ranks(vs, group) && |us| == |vs|
    requires forall n :: 0 <= n < |group| ==> us[group[n]] == vs[group[n]]
    ensures Ranks(us, group) && Keys(us, group) == Keys(vs, group)
  {
  }

  ghost predicate Untouched(vs: seq<Verdict>, us: seq<Verdict>, target: string) {
    |us| == |vs| && forall i: nat :: i < |vs| && vs[i].target == target ==> us[i] == vs[i]
  }

  method SettleGroup(a: array<Verdict>, group: seq<nat>, ghost vs: seq<Verdict>, ghost target: string)
    returns (demoted: nat)
    requires Tiered(vs) && group == Claimants(vs, |vs|, target) && Untouched(vs, a[..], target)
    modifies a
    ensures forall i: nat :: i < |vs| ==>
      a[i] == if i in GroupLosers(vs, target) then Queued(vs[i]) else old(a[i])
    ensures demoted == |GroupLosers(vs, target)|
  {
    ClaimantsClaim(vs, |vs|, target);
    ClaimantsDistinct(vs, |vs|, target);
    assert forall n :: 0 <= n < |group| ==> group[n] in group;
    if |group| < 2 {
      NobodyContests(vs, target);
      return 0;
    }
    GroupRanks(vs, target);
    SameRanks(vs, a[..], group);
    var ranked := Ranked(a[..], group);
    DistinctRearranged(group, ranked);
    assert forall n :: 0 <= n < |ranked| ==> ranked[n] in ranked;
    SameRanks(a[..], vs, ranked);
    var kept := if Strength(a[ranked[0]]) > Strength(a[ranked[1]]) then ranked[0] else a.Length;
    assert kept == Keep(vs, ranked);
    KeptIsNotQueued(vs, target, ranked);
    demoted := QueueGroup(a, group, kept);
  }

  lemma NobodyContests(vs: seq<Verdict>, target: string)
    requires Tiered(vs) && |Claimants(vs, |vs|, target)| < 2
    ensures GroupLosers(vs, target) == {}
  {
    forall i: nat | i < |vs| && vs[i].target == target
      ensures !Loses(vs, i)
    {
      if vs[i].action == Attach {
        GroupIsContested(vs, target, i);
      }
    }
  }

  /** The losers whose target is no longer among `rest`. */
  ghost function SettledLosers(vs: seq<Verdict>, rest: set<string>): set<nat>
    requires Tiered(vs)
  {
    set i: nat | i < |vs| && vs[i].target !in rest && Loses(vs, i)
  }

  lemma OneMoreGroup(vs: seq<Verdict>, rest: set<string>, target: string)
    requires Tiered(vs) && target in rest
    ensures SettledLosers(vs, rest - {target}) == SettledLosers(vs, rest) + GroupLosers(vs, target)
    ensures |SettledLosers(vs, rest - {target})| == |SettledLosers(vs, rest)| + |GroupLosers(vs, target)|
  {
    var before, group := SettledLosers(vs, rest), GroupLosers(vs, target);
    assert SettledLosers(vs, rest - {target}) == before + group;
    assert before !! group;
  }

  /** Every claim is in some group, so at first nothing is settled and at last everything. */
  lemma GroupsCoverLosers(vs: seq<Verdict>, claims: map<string, seq<nat>>)
    requires Tiered(vs) && claims == Grouped(vs, |vs|)
    ensures SettledLosers(vs, claims.Keys) == {} && SettledLosers(vs, {}) == Losers(vs)
  {
    forall i: nat | i < |vs| && Loses(vs, i)
      ensures vs[i].target in claims
    {
      GroupIsContested(vs, vs[i].target, i);
      GroupsAreClaimants(vs, |vs|, vs[i].target);
    }
  }

  method DemoteCollisions(a: array<Verdict>) returns (demoted: nat)
    requires Tiered(a[..])
    modifies a
    ensures a[..] == Demoted(old(a[..]))
    ensures demoted == |Losers(old(a[..]))|
  {
    ghost var vs := a[..];
    var claims := GroupClaims(a);
    GroupsCoverLosers(vs, claims);
    demoted := 0;
    var rest := claims.Keys;
    while rest != {}
      invariant rest <= claims.Keys
      invariant forall i: nat :: i < |vs| ==>
        a[i] == if i in SettledLosers(vs, rest) then Queued(vs[i]) else vs[i]
      invariant demoted == |SettledLosers(vs, rest)|
      decreases rest
    {
      var t :| t in rest;
      OneMoreGroup(vs, rest, t);
      GroupsAreClaimants(vs, |vs|, t);
      var n := SettleGroup(a, claims[t], vs, t);
      demoted := demoted + n;
      rest := rest - {t};
    }
  }

  // ---- What the pass promises -------------------------------------------------------

  lemma DemotedAt(vs: seq<Verdict>, i: nat)
    requires Tiered(vs) && i < |vs|
    ensures Demoted(vs)[i].action == Attach <==> vs[i].action == Attach && (Contested(vs, i) ==> Strongest(vs, i))
    ensures Demoted(vs)[i].action == Attach ==> Demoted(vs)[i] == vs[i]
    ensures Demoted(vs)[i].target == vs[i].target && Demoted(vs)[i].entry == vs[i].entry
  {
  }

  /** No two entries stay attached to one tournament. */
  lemma AttachmentIsInjective(vs: seq<Verdict>, i: nat, j: nat)
    requires Tiered(vs) && i < |vs| && j < |vs| && i != j
    ensures !(Claims(Demoted(vs)[i], vs[i].target) && Claims(Demoted(vs)[j], vs[i].target))
  {
    DemotedAt(vs, i);
    DemotedAt(vs, j);
    if Claims(vs[i], vs[i].target) && Claims(vs[j], vs[i].target) {
      assert Contested(vs, i) && Contested(vs, j);
    }
  }

  /** A contested tournament keeps an attachment exactly when one claimant beats
      all the others, and then that one. */
  lemma SurvivorIsStrongest(vs: seq<Verdict>, i: nat)
    requires Tiered(vs) && i < |vs| && Contested(vs, i)
    ensures Demoted(vs)[i].action == Attach <==>
      forall j: nat :: j < |vs| && j != i && Claims(vs[j], vs[i].target) ==>
        vs[j].why in TIER_STRENGTH && Strength(vs[j]) < Strength(vs[i])
  {
    DemotedAt(vs, i);
    forall j: nat | j < |vs| && j != i && Claims(vs[j], vs[i].target)
      ensures Contested(vs, j)
    {
      assert Claims(vs[i], vs[j].target);
    }
  }

  /** Whatever was not a contested attachment is left as it was. */
  lemma OthersKept(vs: seq<Verdict>, i: nat)
    requires Tiered(vs) && i < |vs| && !Contested(vs, i)
    ensures Demoted(vs)[i] == vs[i]
  {
  }

  lemma NothingContestedAfter(vs: seq<Verdict>)
    requires Tiered(vs)
    ensures forall i: nat :: i < |vs| ==> !Contested(Demoted(vs), i)
  {
    var r := Demoted(vs);
    forall i: nat | i < |vs|
      ensures !Contested(r, i)
    {
      if Contested(r, i) {
        var j: nat :| j < |r| && j != i && Claims(r[j], r[i].target);
        DemotedAt(vs, i);
        AttachmentIsInjective(vs, i, j);
        assert false;
      }
    }
  }

  /** The count returned is the number of verdicts the pass changed, and a second
      pass changes and counts nothing. */
  lemma SecondPassDemotesNothing(vs: seq<Verdict>)
    requires Tiered(vs)
    ensures Losers(vs) == set i: nat | i < |vs| && Demoted(vs)[i] != vs[i]
    ensures Tiered(Demoted(vs)) && Demoted(Demoted(vs)) == Demoted(vs) && Losers(Demoted(vs)) == {}
  {
    NothingContestedAfter(vs);
  }

  // ---- The tiers --------------------------------------------------------------------

  /** An entry's own link to a tournament beats everything else, its VEKN id what the winner and the
      date suggest, and of those a matching name or size, which are equal, the bare guess. */
  predicate Outranks(why: string, other: string) {
    || (why == "own link" && other in {"vekn id", "winner+date+name", "winner+date+size", "winner+date"})
    || (why == "vekn id" && other in {"winner+date+name", "winner+date+size", "winner+date"})
    || (why in {"winner+date+name", "winner+date+size"} && other == "winner+date")
  }

  /** A contested attachment survives if and only if the reason for it outranks the reason for every
      rival; the others go to the queue as contested. */
  lemma SurvivorOutranks(vs: seq<Verdict>, i: nat)
    requires Tiered(vs) && i < |vs| && Contested(vs, i)
    ensures var r := Demoted(vs)[i];
            if forall j: nat :: j < |vs| && j != i && vs[j].action == Attach && vs[j].target == vs[i].target ==>
                 Outranks(vs[i].why, vs[j].why)
            then r == vs[i]
            else r == vs[i].(action := Review, why := "target claimed by another entry")
  {
    forall j: nat | j < |vs| && j != i && Claims(vs[j], vs[i].target)
      ensures Contested(vs, j) && (Outranks(vs[i].why, vs[j].why) <==> Strength(vs[j]) < Strength(vs[i]))
    {
      assert Claims(vs[i], vs[j].target);
    }
  }
}

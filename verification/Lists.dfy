/** Taking one element out of a list: what the proofs that a fold does not see the
    order of its list have in common. */
module Lists {

  function Init<T>(s: seq<T>): seq<T>
    requires s != []
  {
    s[..|s| - 1]
  }

  function Last<T>(s: seq<T>): T
    requires s != []
  {
    s[|s| - 1]
  }

  function Without<T>(s: seq<T>, at: nat): (r: seq<T>)
    requires at < |s|
    ensures |r| == |s| - 1
  {
    s[..at] + s[at + 1..]
  }

  /** Taking out the last element leaves the rest; taking out another leaves the
      last one last. */
  lemma WithoutLast<T>(s: seq<T>)
    requires s != []
    ensures Without(s, |s| - 1) == Init(s)
  {
  }

  lemma WithoutEarlier<T>(s: seq<T>, at: nat)
    requires at < |s| - 1
    ensures Without(s, at) != [] && at < |Init(s)| && Init(s)[at] == s[at]
    ensures Init(Without(s, at)) == Without(Init(s), at) && Last(Without(s, at)) == Last(s)
  {
  }

  lemma BagOfInit<T>(s: seq<T>)
    requires s != []
    ensures multiset(s) == multiset(Init(s)) + multiset{Last(s)}
  {
    assert s == Init(s) + [Last(s)];
  }

  lemma BagWithout<T>(s: seq<T>, at: nat)
    requires at < |s|
    ensures multiset(s) == multiset(Without(s, at)) + multiset{s[at]}
  {
    assert s == s[..at] + [s[at]] + s[at + 1..];
  }

  /** Two lists with the same elements: the last of one can be taken out of the
      other, leaving the same elements again. */
  lemma LastIsFound<T>(s: seq<T>, r: seq<T>) returns (at: nat)
    requires s != [] && multiset(s) == multiset(r)
    ensures at < |r| && r[at] == Last(s) && multiset(Init(s)) == multiset(Without(r, at))
  {
    BagOfInit(s);
    assert Last(s) in multiset(r);
    at :| 0 <= at < |r| && r[at] == Last(s);
    BagWithout(r, at);
    assert multiset(Init(s)) == multiset(s) - multiset{Last(s)};
    assert multiset(Without(r, at)) == multiset(r) - multiset{r[at]};
  }

  lemma SameBagSameLength<T>(s: seq<T>, r: seq<T>)
    requires multiset(s) == multiset(r)
    ensures |s| == |r|
  {
    assert |multiset(s)| == |multiset(r)|;
  }
}

/** How many elements of a sequence have a property, order of sizes and products, powers of two. */
module Counting {
  function Count<T>(s: seq<T>, holds: T -> bool): nat {
    if s == [] then 0 else Count(s[..|s| - 1], holds) + One(holds(s[|s| - 1]))
  }

  function One(b: bool): nat { if b then 1 else 0 }

  lemma {:induction false} CountAfter<T>(s: seq<T>, holds: T -> bool, t: nat, x: T)
    requires t < |s|
    ensures Count(s[t := x], holds) == Count(s, holds) - One(holds(s[t])) + One(holds(x))
  {
    var n := |s| - 1;
    if t == n {
      assert s[t := x][..n] == s[..n];
    } else {
      CountAfter(s[..n], holds, t, x);
      assert s[t := x][..n] == s[..n][t := x];
    }
  }

  lemma CountWith<T>(s: seq<T>, holds: T -> bool, x: T)
    ensures Count(s + [x], holds) == Count(s, holds) + One(holds(x))
  {
    assert (s + [x])[..|s|] == s;
  }

  lemma {:induction false} CountSeesEach<T>(s: seq<T>, holds: T -> bool, t: nat)
    requires t < |s| && holds(s[t])
    ensures Count(s, holds) > 0
  {
    if t < |s| - 1 { CountSeesEach(s[..|s| - 1], holds, t); }
  }

  lemma {:induction false} CountedIsThere<T>(s: seq<T>, holds: T -> bool) returns (t: nat)
    requires Count(s, holds) > 0
    ensures t < |s| && holds(s[t])
  {
    if holds(s[|s| - 1]) { t := |s| - 1; } else { t := CountedIsThere(s[..|s| - 1], holds); }
  }

  lemma {:induction false} CountSeesBoth<T>(s: seq<T>, holds: T -> bool, t: nat, u: nat)
    requires t < u < |s| && holds(s[t]) && holds(s[u])
    ensures Count(s, holds) > 1
  {
    if u < |s| - 1 { CountSeesBoth(s[..|s| - 1], holds, t, u); } else { CountSeesEach(s[..|s| - 1], holds, t); }
  }

  lemma SmallerSet<T>(a: set<T>, b: set<T>)
    requires a <= b
    ensures |a| <= |b|
    ensures a < b ==> |a| < |b|
  {
    assert b == a + (b - a);
    if a < b {
      var x :| x in b - a;
      assert |b - a| >= 1;
    }
  }

  lemma OneFewerLeft<T>(universe: set<T>, a: set<T>, x: T)
    requires x in universe && x !in a
    ensures |universe - (a + {x})| < |universe - a|
  {
    assert universe - (a + {x}) == (universe - a) - {x};
  }

  lemma MulOrder(a: nat, b: nat, c: nat)
    requires a <= b
    ensures a * c <= b * c
  {
  }

  function Pow2(n: nat): (r: nat)
    ensures r > 0
  {
    if n == 0 then 1 else 2 * Pow2(n - 1)
  }

  lemma {:induction false} Pow2Grows(a: nat, b: nat)
    requires a < b
    ensures Pow2(a) < Pow2(b)
  {
    if a < b - 1 { Pow2Grows(a, b - 1); }
  }
}

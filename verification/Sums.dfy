// Finite sums: over an integer-valued map, and over the entries of one group
// of a ledger keyed by (group, owner).

module Sums {
  import opened Checked

  ghost function Sum<K>(m: map<K, int>): int {
    if m == map[] then 0
    else
      var k :| k in m;
      m[k] + Sum(m - {k})
  }

  // The summand taken out does not matter.
  lemma {:induction false} SumSplit<K>(m: map<K, int>, k: K)
    requires k in m
    ensures Sum(m) == m[k] + Sum(m - {k})
    decreases |m|
  {
    var j :| j in m && Sum(m) == m[j] + Sum(m - {j});
    if j == k {
    } else {
      SumSplit(m - {j}, k);
      SumSplit(m - {k}, j);
      assert m - {j} - {k} == m - {k} - {j};
    }
  }

  function At<K>(m: map<K, int>, k: K): int {
    if k in m then m[k] else 0
  }

  lemma SumSet<K>(m: map<K, int>, k: K, v: int)
    ensures Sum(m[k := v]) == Sum(m) - At(m, k) + v
  {
    SumSplit(m[k := v], k);
    assert m[k := v] - {k} == m - {k};
    if k in m {
      SumSplit(m, k);
    } else {
      assert m - {k} == m;
    }
  }

  lemma SumDrop<K>(m: map<K, int>, k: K)
    ensures Sum(m - {k}) == Sum(m) - At(m, k)
  {
    if k in m {
      SumSplit(m, k);
    } else {
      assert m - {k} == m;
    }
  }

  // Two maps that differ at one key.
  lemma SumSwap<K>(m: map<K, int>, m': map<K, int>, k: K)
    requires m.Keys - {k} == m'.Keys - {k}
    requires forall j :: j in m && j != k ==> j in m' && m'[j] == m[j]
    ensures Sum(m') == Sum(m) - At(m, k) + At(m', k)
  {
    assert m - {k} == m' - {k};
    SumDrop(m, k);
    SumDrop(m', k);
  }

  lemma {:induction false} SumMono<K>(a: map<K, int>, b: map<K, int>)
    requires a.Keys == b.Keys
    requires forall k :: k in a ==> a[k] <= b[k]
    ensures Sum(a) <= Sum(b)
    decreases |a|
  {
    if a == map[] {
      assert b == map[];
    } else {
      var k :| k in a;
      SumSplit(a, k);
      SumSplit(b, k);
      SumMono(a - {k}, b - {k});
    }
  }

  lemma {:induction false} SumAdd<K>(a: map<K, int>, b: map<K, int>, c: map<K, int>)
    requires a.Keys == b.Keys == c.Keys
    requires forall k :: k in a ==> c[k] == a[k] + b[k]
    ensures Sum(c) == Sum(a) + Sum(b)
    decreases |a|
  {
    if a == map[] {
      assert b == map[] && c == map[];
    } else {
      var k :| k in a;
      SumSplit(a, k);
      SumSplit(b, k);
      SumSplit(c, k);
      SumAdd(a - {k}, b - {k}, c - {k});
    }
  }

  lemma {:induction false} SumZero<K>(a: map<K, int>)
    requires forall k :: k in a ==> a[k] == 0
    ensures Sum(a) == 0
    decreases |a|
  {
    if a == map[] {
    } else {
      var k :| k in a;
      SumSplit(a, k);
      SumZero(a - {k});
    }
  }

  // A map that is zero but for two keys.
  lemma SumTwoPoints<K>(a: map<K, int>, i: K, j: K)
    requires i != j && forall k :: k in a && k != i && k != j ==> a[k] == 0
    ensures Sum(a) == At(a, i) + At(a, j)
  {
    SumDrop(a, i);
    SumDrop(a - {i}, j);
    SumZero(a - {i} - {j});
  }

  lemma SumNonNeg<K>(a: map<K, int>)
    requires forall k :: k in a ==> 0 <= a[k]
    ensures 0 <= Sum(a)
  {
    var z := map k | k in a :: 0;
    SumZero(z);
    SumMono(z, a);
  }

  lemma SumAtLeast<K>(a: map<K, int>, k: K)
    requires forall j :: j in a ==> 0 <= a[j]
    ensures At(a, k) <= Sum(a)
  {
    if k in a {
      SumSplit(a, k);
      SumNonNeg(a - {k});
    } else {
      SumNonNeg(a);
    }
  }

  // A map that stays under another at each of its own keys.
  lemma {:induction false} SumUnder<K>(a: map<K, int>, b: map<K, int>)
    requires forall k :: k in a ==> a[k] <= At(b, k)
    requires forall k :: k in b ==> 0 <= b[k]
    ensures Sum(a) <= Sum(b)
    decreases |a|
  {
    if a == map[] {
      SumNonNeg(b);
    } else {
      var k :| k in a;
      SumSplit(a, k);
      SumDrop(b, k);
      SumUnder(a - {k}, b - {k});
    }
  }

  lemma Distribute(c: int, x: int, y: int)
    ensures c * (x + y) == c * x + c * y
  {}

  lemma {:induction false} SumScale<K>(a: map<K, int>, b: map<K, int>, c: int)
    requires a.Keys == b.Keys
    requires forall k :: k in a ==> b[k] == c * a[k]
    ensures Sum(b) == c * Sum(a)
    decreases |a|
  {
    if a == map[] {
      assert b == map[];
    } else {
      var k :| k in a;
      SumSplit(a, k);
      SumSplit(b, k);
      SumScale(a - {k}, b - {k}, c);
      Distribute(c, a[k], Sum(a - {k}));
    }
  }

  // The sum of an indicator counts.
  lemma {:induction false} SumCount<K>(a: map<K, int>, live: set<K>)
    requires live <= a.Keys
    requires forall k :: k in a ==> a[k] == if k in live then 1 else 0
    ensures Sum(a) == |live|
    decreases |a|
  {
    if a == map[] {
      assert live == {};
    } else {
      var k :| k in a;
      SumSplit(a, k);
      SumCount(a - {k}, live - {k});
      if k !in live {
        assert live - {k} == live;
      }
    }
  }

  // Floored shares. `share[k]` is floor(c * part[k] / whole), and exact outside
  // `live`. The shares never add up to more than c * sum / whole, and fall
  // short of it by less than one unit per live entry.
  lemma SumShares<K>(part: map<K, int>, share: map<K, int>, c: int, whole: int, live: set<K>)
    requires 0 < whole
    requires part.Keys == share.Keys && live <= part.Keys
    requires forall k :: k in part ==> whole * share[k] <= c * part[k]
    requires forall k :: k in live ==> c * part[k] <= whole * share[k] + whole - 1
    requires forall k :: k in part && k !in live ==> c * part[k] <= whole * share[k]
    ensures whole * Sum(share) <= c * Sum(part) <= whole * Sum(share) + (whole - 1) * |live|
  {
    var scaled := map k | k in part :: c * part[k];
    var taken := map k | k in part :: whole * share[k];
    assert forall k :: k in part ==> taken[k] <= scaled[k];
    assert forall k :: k in part ==> scaled[k] <= taken[k] + if k in live then whole - 1 else 0;
    SumScale(part, scaled, c);
    SumScale(share, taken, whole);
    SumBetween(taken, scaled, live, whole - 1);
  }

  lemma SumBetween<K>(a: map<K, int>, b: map<K, int>, live: set<K>, slack: int)
    requires a.Keys == b.Keys && live <= a.Keys
    requires forall k :: k in a ==> a[k] <= b[k]
    requires forall k :: k in a ==> b[k] <= a[k] + if k in live then slack else 0
    ensures Sum(a) <= Sum(b) <= Sum(a) + slack * |live|
  {
    var lost := map k | k in a :: if k in live then slack else 0;
    var cap := map k | k in a :: a[k] + lost[k];
    var one := map k | k in a :: if k in live then 1 else 0;
    SumCount(one, live);
    SumScale(one, lost, slack);
    SumAdd(a, lost, cap);
    SumMono(a, b);
    SumMono(b, cap);
  }

  // ----- Ledgers -------------------------------------------------------------

  type Ledger<G(==), U(==), P> = map<(G, U), P>

  // The weights of the entries of group g.
  ghost function Weights<G(!new), U(!new), P>(ps: Ledger<G, U, P>, g: G, f: P -> int): (m: map<(G, U), int>)
    ensures forall k :: k in m <==> k in ps && k.0 == g
    ensures forall k :: k in m ==> m[k] == f(ps[k])
  {
    map k | k in ps && k.0 == g :: f(ps[k])
  }

  ghost function Total<G(!new), U(!new), P>(ps: Ledger<G, U, P>, g: G, f: P -> int): int {
    Sum(Weights(ps, g, f))
  }

  lemma TotalSet<G(!new), U(!new), P>(ps: Ledger<G, U, P>, g: G, u: U, p: P, f: P -> int)
    ensures Total(ps[(g, u) := p], g, f) == Total(ps, g, f) - (if (g, u) in ps then f(ps[(g, u)]) else 0) + f(p)
  {
    SumSet(Weights(ps, g, f), (g, u), f(p));
    assert Weights(ps[(g, u) := p], g, f) == Weights(ps, g, f)[(g, u) := f(p)];
  }

  lemma TotalDrop<G(!new), U(!new), P>(ps: Ledger<G, U, P>, g: G, u: U, f: P -> int)
    ensures Total(ps - {(g, u)}, g, f) == Total(ps, g, f) - (if (g, u) in ps then f(ps[(g, u)]) else 0)
  {
    SumDrop(Weights(ps, g, f), (g, u));
    assert Weights(ps - {(g, u)}, g, f) == Weights(ps, g, f) - {(g, u)};
  }

  lemma TotalDropLess<G(!new), U(!new), P>(ps: Ledger<G, U, P>, g: G, u: U, f: P -> int)
    requires forall k :: k in ps ==> 0 <= f(ps[k])
    ensures Total(ps - {(g, u)}, g, f) <= Total(ps, g, f)
  {
    TotalDrop(ps, g, u, f);
  }

  // Entries of other groups do not matter.
  lemma TotalFrame<G(!new), U(!new), P>(ps: Ledger<G, U, P>, ps': Ledger<G, U, P>, g: G, f: P -> int)
    requires forall k: (G, U) :: k.0 == g ==> (k in ps <==> k in ps')
    requires forall k :: k in ps && k.0 == g ==> ps[k] == ps'[k]
    ensures Total(ps', g, f) == Total(ps, g, f)
  {
    assert Weights(ps', g, f) == Weights(ps, g, f);
  }

  lemma TotalMono<G(!new), U(!new), P>(ps: Ledger<G, U, P>, g: G, f: P -> int, h: P -> int)
    requires forall k :: k in ps && k.0 == g ==> f(ps[k]) <= h(ps[k])
    ensures Total(ps, g, f) <= Total(ps, g, h)
  {
    SumMono(Weights(ps, g, f), Weights(ps, g, h));
  }

  lemma TotalAdd<G(!new), U(!new), P>(ps: Ledger<G, U, P>, g: G, a: P -> int, b: P -> int, c: P -> int)
    requires forall k :: k in ps && k.0 == g ==> c(ps[k]) == a(ps[k]) + b(ps[k])
    ensures Total(ps, g, c) == Total(ps, g, a) + Total(ps, g, b)
  {
    SumAdd(Weights(ps, g, a), Weights(ps, g, b), Weights(ps, g, c));
  }

  lemma TotalNonNeg<G(!new), U(!new), P>(ps: Ledger<G, U, P>, g: G, f: P -> int)
    requires forall k :: k in ps && k.0 == g ==> 0 <= f(ps[k])
    ensures 0 <= Total(ps, g, f)
  {
    SumNonNeg(Weights(ps, g, f));
  }

  lemma TotalEmpty<G(!new), U(!new), P>(ps: Ledger<G, U, P>, g: G, f: P -> int)
    requires forall k :: k in ps ==> k.0 != g
    ensures Total(ps, g, f) == 0
  {
    assert Weights(ps, g, f) == map[];
  }

  lemma TotalAtLeast<G(!new), U(!new), P>(ps: Ledger<G, U, P>, g: G, u: U, f: P -> int)
    requires forall k :: k in ps && k.0 == g ==> 0 <= f(ps[k])
    requires (g, u) in ps
    ensures f(ps[(g, u)]) <= Total(ps, g, f)
  {
    SumAtLeast(Weights(ps, g, f), (g, u));
  }

  // Floored shares of a group, see SumShares.
  lemma TotalShares<G(!new), U(!new), P>(ps: Ledger<G, U, P>, g: G, part: P -> int, share: P -> int, c: int, whole: int,
                             live: set<(G, U)>)
    requires 0 < whole
    requires forall k :: k in live ==> k in ps && k.0 == g
    requires forall k :: k in ps && k.0 == g ==> whole * share(ps[k]) <= c * part(ps[k])
    requires forall k :: k in live ==> c * part(ps[k]) <= whole * share(ps[k]) + whole - 1
    requires forall k :: k in ps && k.0 == g && k !in live ==> c * part(ps[k]) <= whole * share(ps[k])
    ensures whole * Total(ps, g, share) <= c * Total(ps, g, part)
         <= whole * Total(ps, g, share) + (whole - 1) * |live|
  {
    SumShares(Weights(ps, g, part), Weights(ps, g, share), c, whole, live);
  }

  // What the bounds of TotalShares say about the whole amount c: it is never
  // overspent, and if the parts make up the whole, less than one unit per live
  // entry is left.
  lemma SharesOfWhole(c: nat, whole: nat, parts: int, shares: int, live: nat)
    requires 0 < whole && parts <= whole
    requires whole * shares <= c * parts <= whole * shares + (whole - 1) * live
    ensures shares <= c
    ensures parts == whole && 0 < live ==> c <= shares + live - 1
  {
    assert c * parts <= c * whole == whole * c;
    assert whole * (c + 1) == whole * c + whole;
    Cancel(whole, shares, c + 1);
    if parts == whole && 0 < live {
      assert (whole - 1) * live == whole * live - live;
      assert whole * (shares + live) == whole * shares + whole * live;
      Cancel(whole, c, shares + live);
    }
  }

  // ----- Lists --------------------------------------------------------------------

  function ListSum<T>(xs: seq<T>, f: T -> int): int {
    if xs == [] then 0 else ListSum(xs[..|xs| - 1], f) + f(xs[|xs| - 1])
  }

  lemma ListSumMore<T>(xs: seq<T>, x: T, f: T -> int)
    ensures ListSum(xs + [x], f) == ListSum(xs, f) + f(x)
  {
    assert (xs + [x])[..|xs|] == xs;
  }

  lemma {:induction false} ListSumSame<T>(xs: seq<T>, f: T -> int, g: T -> int)
    requires forall x :: x in xs ==> f(x) == g(x)
    ensures ListSum(xs, f) == ListSum(xs, g)
  {
    if xs == [] {
    } else {
      ListSumSame(xs[..|xs| - 1], f, g);
    }
  }

  lemma {:induction false} ListSumWithout<T>(xs: seq<T>, i: nat, f: T -> int)
    requires i < |xs|
    ensures ListSum(xs, f) == ListSum(xs[..i] + xs[i + 1..], f) + f(xs[i])
  {
    var last := |xs| - 1;
    if i == last {
      assert xs[..i] + xs[i + 1..] == xs[..last];
    } else {
      ListSumWithout(xs[..last], i, f);
      var rest := xs[..i] + xs[i + 1..];
      assert rest[..|rest| - 1] == xs[..last][..i] + xs[..last][i + 1..];
      assert rest[|rest| - 1] == xs[last];
    }
  }

  // A sum over a list does not depend on its order.
  lemma {:induction false} ListSumIgnoresOrder<T>(a: seq<T>, b: seq<T>, f: T -> int)
    requires multiset(a) == multiset(b)
    ensures ListSum(a, f) == ListSum(b, f)
    decreases |a|
  {
    if a == [] {
      assert |multiset(b)| == 0;
    } else {
      var last := |a| - 1;
      assert a[last] in multiset(b);
      var i :| 0 <= i < |b| && b[i] == a[last];
      ListSumWithout(b, i, f);
      WithoutOne(a, last);
      WithoutOne(b, i);
      assert a[..last] + a[last + 1..] == a[..last];
      ListSumIgnoresOrder(a[..last], b[..i] + b[i + 1..], f);
    }
  }

  // Taking one element out of a list.
  lemma WithoutOne<T>(a: seq<T>, i: nat)
    requires i < |a|
    ensures multiset(a[..i] + a[i + 1..]) == multiset(a) - multiset{a[i]}
  {
    assert a == a[..i] + [a[i]] + a[i + 1..];
  }
}

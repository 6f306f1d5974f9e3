/** Majorities of the ranks 1..n. */
module Quorums {

  predicate InRange(r: nat, n: nat) {
    1 <= r <= n
  }

  ghost function Ranks(n: nat): set<nat> {
    set r: nat | r <= n && InRange(r, n)
  }

  lemma {:induction false} RanksSize(n: nat)
    ensures |Ranks(n)| == n
  {
    if n == 0 {
      assert forall r: nat :: !InRange(r, 0);
      assert Ranks(0) == {};
    } else {
      RanksSize(n - 1);
      assert forall r: nat :: InRange(r, n) <==> InRange(r, n - 1) || r == n;
      assert Ranks(n) == Ranks(n - 1) + {n};
    }
  }

  lemma SubsetSize(a: set<nat>, b: set<nat>)
    requires a <= b
    ensures |a| <= |b|
  {
    assert b == a + (b - a);
  }

  /** Two majorities share a rank. */
  lemma Intersect(n: nat, a: set<nat>, b: set<nat>) returns (r: nat)
    requires a <= Ranks(n) && b <= Ranks(n) && 2 * |a| > n && 2 * |b| > n
    ensures r in a && r in b
  {
    if a * b == {} {
      RanksSize(n);
      assert |a + b| == |a| + |b|;
      SubsetSize(a + b, Ranks(n));
    }
    r :| r in a * b;
  }

  ghost predicate Injective(f: map<nat, nat>) {
    forall a, b :: a in f && b in f && f[a] == f[b] ==> a == b
  }

  lemma {:induction false} InjectiveBound(f: map<nat, nat>, t: set<nat>)
    requires Injective(f) && forall a :: a in f ==> f[a] in t
    ensures |f| <= |t|
    decreases |f|
  {
    if f != map[] {
      var a :| a in f;
      var rest := map x | x in f && x != a :: f[x];
      assert rest.Keys == f.Keys - {a};
      InjectiveBound(rest, t - {f[a]});
    }
  }

  /** n different values out of 1..n leave none out. */
  lemma Pigeonhole(f: map<nat, nat>, n: nat, k: nat)
    requires Injective(f) && (forall a :: a in f ==> f[a] in Ranks(n)) && |f| >= n && k in Ranks(n)
    ensures exists a :: a in f && f[a] == k
  {
    if forall a :: a in f ==> f[a] != k {
      RanksSize(n);
      InjectiveBound(f, Ranks(n) - {k});
    }
  }
}

/** Facts about finite sets and sums that several components count with. */
module Sets {

  /** f(0) + ... + f(n - 1) */
  function SumTo(f: nat -> nat, n: nat): nat {
    if n == 0 then 0 else SumTo(f, n - 1) + f(n - 1)
  }

  /** f(0) + ... + f(n - 1) for maps. */
  function UnionTo<K, V>(f: nat -> map<K, V>, n: nat): map<K, V> {
    if n == 0 then map[] else UnionTo(f, n - 1) + f(n - 1)
  }

  /** No key is in two of the first n maps. */
  predicate ApartTo<K, V>(f: nat -> map<K, V>, n: nat) {
    forall j, k :: 0 <= j < k < n ==> f(j).Keys !! f(k).Keys
  }

  lemma {:induction false} UnionToFrom<K, V>(f: nat -> map<K, V>, n: nat, x: K) returns (k: nat)
    requires x in UnionTo(f, n)
    ensures k < n && x in f(k) && UnionTo(f, n)[x] == f(k)[x]
  {
    if x in f(n - 1) { k := n - 1; } else { k := UnionToFrom(f, n - 1, x); }
  }

  lemma {:induction false} UnionToHas<K, V>(f: nat -> map<K, V>, n: nat, k: nat, x: K)
    requires ApartTo(f, n) && k < n && x in f(k)
    ensures x in UnionTo(f, n) && UnionTo(f, n)[x] == f(k)[x]
  {
    if k < n - 1 {
      UnionToHas(f, n - 1, k, x);
      assert f(k).Keys !! f(n - 1).Keys;
    }
  }

  lemma MergedSize<K, V>(a: map<K, V>, b: map<K, V>)
    requires a.Keys !! b.Keys
    ensures |a + b| == |a| + |b|
  {
    assert (a + b).Keys == a.Keys + b.Keys;
    assert |a.Keys + b.Keys| == |a.Keys| + |b.Keys|;
  }

  lemma UnionToApart<K, V>(f: nat -> map<K, V>, n: nat)
    requires ApartTo(f, n + 1)
    ensures UnionTo(f, n).Keys !! f(n).Keys
  {
    var a, b := UnionTo(f, n).Keys, f(n).Keys;
    forall x | x in a ensures x !in b {
      var k := UnionToFrom(f, n, x);
      assert f(k).Keys !! f(n).Keys;
    }
  }

  lemma UnionToStep<K, V>(f: nat -> map<K, V>, n: nat)
    requires ApartTo(f, n + 1)
    ensures |UnionTo(f, n + 1)| == |UnionTo(f, n)| + |f(n)|
  {
    UnionToApart(f, n);
    MergedSize(UnionTo(f, n), f(n));
  }

  lemma UnionToSize<K, V>(f: nat -> map<K, V>, sizes: nat -> nat, n: nat)
    requires ApartTo(f, n) && forall k: nat :: k < n ==> sizes(k) == |f(k)|
    ensures |UnionTo(f, n)| == SumTo(sizes, n)
  {
    for k := 0 to n
      invariant |UnionTo(f, k)| == SumTo(sizes, k)
    {
      UnionToStep(f, k);
    }
  }

  /** Of two sums compared term by term the smaller is equal to the larger only if every term is. */
  lemma {:induction false} SumsCompared(f: nat -> nat, g: nat -> nat, n: nat)
    requires forall k: nat :: k < n ==> f(k) <= g(k)
    ensures SumTo(f, n) <= SumTo(g, n)
    ensures SumTo(f, n) == SumTo(g, n) <==> forall k: nat :: k < n ==> f(k) == g(k)
  {
    if n > 0 { SumsCompared(f, g, n - 1); }
  }

  lemma {:induction false} SumToGrows(f: nat -> nat, n: nat, m: nat)
    requires n <= m
    ensures SumTo(f, n) <= SumTo(f, m)
  {
    if n < m { SumToGrows(f, n, m - 1); }
  }

  lemma SameMap<K, V>(a: map<K, V>, b: map<K, V>)
    requires forall k | k in a :: k in b && a[k] == b[k]
    requires forall k | k in b :: k in a
    ensures a == b
  {
  }

  lemma SubsetSize<T>(a: set<T>, b: set<T>)
    requires a <= b
    ensures |a| <= |b|
  {
    assert b == a + (b - a);
  }

  lemma SubsetSizeIff<T>(a: set<T>, b: set<T>)
    requires a <= b
    ensures |a| == |b| <==> a == b
  {
    assert b == a + (b - a);
    assert |b| == |a| + |b - a|;
  }
}

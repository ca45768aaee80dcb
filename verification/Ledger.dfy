/** Sums over tables: what SQL's `SUM(size)` computes, whole and per owner. */
module Ledger {
  import opened Basics

  type Owner = seq<byte>

  ghost function Total<K>(m: map<K, nat>): nat
    decreases |m|
  {
    if m == map[] then 0 else var k :| k in m; m[k] + Total(m - {k})
  }

  /** The part of a table that belongs to one owner. */
  function Share<K>(m: map<K, nat>, own: K -> Owner, o: Owner): map<K, nat> {
    map k | k in m && own(k) == o :: m[k]
  }

  function At<K>(m: map<K, nat>, k: K): nat { if k in m then m[k] else 0 }

  /** Any row may be taken out first. */
  lemma {:induction false} TotalSplit<K>(m: map<K, nat>, k: K)
    requires k in m
    ensures Total(m) == m[k] + Total(m - {k})
    decreases |m|
  {
    var first :| first in m && Total(m) == m[first] + Total(m - {first});
    if first != k {
      TotalSplit(m - {first}, k);
      TotalSplit(m - {k}, first);
      assert m - {first} - {k} == m - {k} - {first};
    }
  }

  lemma TotalSet<K>(m: map<K, nat>, k: K, v: nat)
    ensures Total(m[k := v]) + At(m, k) == Total(m) + v
  {
    var m' := m[k := v];
    TotalSplit(m', k);
    assert m' - {k} == m - {k};
    if k in m { TotalSplit(m, k); } else { assert m - {k} == m; }
  }

  lemma {:induction false} TotalFewer<K>(m: map<K, nat>, m': map<K, nat>)
    requires forall k :: k in m' ==> k in m && m'[k] == m[k]
    ensures Total(m') <= Total(m)
    decreases |m'|
  {
    if m' != map[] {
      var k :| k in m';
      TotalSplit(m', k);
      TotalSplit(m, k);
      TotalFewer(m - {k}, m' - {k});
    }
  }

  lemma ShareSet<K>(m: map<K, nat>, own: K -> Owner, k: K, v: nat, o: Owner)
    ensures Share(m[k := v], own, o) == if own(k) == o then Share(m, own, o)[k := v] else Share(m, own, o)
    ensures own(k) == o ==> At(Share(m, own, o), k) == At(m, k)
  {
  }

  /** The owners in some order, each one's share added up. */
  ghost function SumShares<K>(m: map<K, nat>, own: K -> Owner, os: seq<Owner>): nat
    decreases |os|
  {
    if os == [] then 0 else Total(Share(m, own, os[0])) + SumShares(m, own, os[1..])
  }

  lemma {:induction false} SumSharesSet<K>(m: map<K, nat>, own: K -> Owner, os: seq<Owner>, k: K, v: nat)
    requires NoDup(os) && k !in m
    ensures SumShares(m[k := v], own, os) == SumShares(m, own, os) + if own(k) in os then v else 0
    decreases |os|
  {
    if os != [] {
      SumSharesSet(m, own, os[1..], k, v);
      ShareSet(m, own, k, v, os[0]);
      if own(k) == os[0] { TotalSet(Share(m, own, os[0]), k, v); }
      assert os == [os[0]] + os[1..];
    }
  }

  lemma {:induction false} SumSharesNone<K>(own: K -> Owner, os: seq<Owner>)
    ensures SumShares(map[], own, os) == 0
    decreases |os|
  {
    if os != [] {
      SumSharesNone(own, os[1..]);
      assert Share(map[], own, os[0]) == map[];
    }
  }

  /** The whole is the sum of its owners' shares. */
  lemma {:induction false} SharesMakeTotal<K>(m: map<K, nat>, own: K -> Owner, os: seq<Owner>)
    requires NoDup(os) && forall k :: k in m ==> own(k) in os
    ensures Total(m) == SumShares(m, own, os)
    decreases |m|
  {
    if m == map[] {
      SumSharesNone(own, os);
    } else {
      var k :| k in m;
      var rest := m - {k};
      SharesMakeTotal(rest, own, os);
      SumSharesSet(rest, own, os, k, m[k]);
      assert rest[k := m[k]] == m;
      TotalSplit(m, k);
    }
  }

  /** `SELECT COALESCE(SUM(size), 0)`. */
  method SumSizes<K(==)>(m: map<K, nat>) returns (n: nat)
    ensures n == Total(m)
  {
    n := 0;
    var left := m;
    while left != map[]
      invariant n + Total(left) == Total(m)
      decreases |left|
    {
      var k :| k in left;
      TotalSplit(left, k);
      n, left := n + left[k], left - {k};
    }
  }
}

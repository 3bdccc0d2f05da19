/** Sums over finite maps and over enumerations of their keys. */
module MapSums {

  /** The iteration order of a map. */
  ghost predicate Enumerates<K, V>(ks: seq<K>, m: map<K, V>) {
    (forall i, j :: 0 <= i < j < |ks| ==> ks[i] != ks[j]) && (forall k <- ks :: k in m) && (forall k <- m :: k in ks)
  }

  ghost function Sum<K>(m: map<K, int>): int {
    if m == map[] then 0
    else
      var k :| k in m;
      m[k] + Sum(m - {k})
  }

  lemma {:induction false} SumWithout<K>(m: map<K, int>, k: K)
    requires k in m
    ensures Sum(m) == m[k] + Sum(m - {k})
    decreases |m|
  {
    var j :| j in m && Sum(m) == m[j] + Sum(m - {j});
    if j != k {
      SumWithout(m - {j}, k);
      SumWithout(m - {k}, j);
      assert (m - {j}) - {k} == (m - {k}) - {j};
    }
  }

  lemma SumPositive<K>(m: map<K, int>)
    requires forall k <- m :: m[k] > 0
    ensures Sum(m) >= |m|
    decreases |m|
  {
    if m != map[] {
      var k :| k in m && Sum(m) == m[k] + Sum(m - {k});
      SumPositive(m - {k});
    }
  }

  /** The sum of the sizes of the first `i` keys of an enumeration. */
  function SumOver<K>(ks: seq<K>, m: map<K, int>, i: nat): int
    requires i <= |ks| && forall k <- ks :: k in m
  {
    if i == 0 then 0 else SumOver(ks, m, i - 1) + m[ks[i - 1]]
  }

  lemma SumOverPrefix<K>(ks: seq<K>, m: map<K, int>, ks': seq<K>, m': map<K, int>, i: nat)
    requires i <= |ks| && i <= |ks'| && (forall k <- ks :: k in m) && (forall k <- ks' :: k in m')
    requires forall j :: 0 <= j < i ==> ks[j] == ks'[j] && m[ks[j]] == m'[ks[j]]
    ensures SumOver(ks, m, i) == SumOver(ks', m', i)
  {
  }

  /** Summing along any enumeration of a map gives the map's sum. */
  lemma {:induction false} SumOverEnumeration<K>(ks: seq<K>, m: map<K, int>)
    requires Enumerates(ks, m)
    ensures SumOver(ks, m, |ks|) == Sum(m)
  {
    if ks == [] {
      assert m == map[];
    } else {
      var n := |ks| - 1;
      DropLastEnumerates(ks, m);
      SumOverEnumeration(ks[..n], m - {ks[n]});
      SumOverPrefix(ks, m, ks[..n], m - {ks[n]}, n);
      SumWithout(m, ks[n]);
    }
  }

  lemma {:induction false} EnumerationLength<K, V>(ks: seq<K>, m: map<K, V>)
    requires Enumerates(ks, m)
    ensures |m| == |ks|
  {
    if ks == [] {
      assert m == map[];
    } else {
      DropLastEnumerates(ks, m);
      EnumerationLength(ks[..|ks| - 1], m - {ks[|ks| - 1]});
    }
  }

  lemma DropLastEnumerates<K, V>(ks: seq<K>, m: map<K, V>)
    requires Enumerates(ks, m) && ks != []
    ensures Enumerates(ks[..|ks| - 1], m - {ks[|ks| - 1]})
    ensures ks[|ks| - 1] in m
  {
    var n := |ks| - 1;
    assert ks[n] in ks;
    forall k | k in ks
      ensures k in ks[..n] || k == ks[n]
    {
      var i :| 0 <= i < |ks| && ks[i] == k;
      assert i < n ==> ks[..n][i] == k;
    }
    forall k | k in ks[..n]
      ensures k in ks && k != ks[n]
    {
      var i :| 0 <= i < n && ks[i] == k;
    }
  }
}

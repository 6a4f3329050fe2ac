// Sums over the values of a map and over a sequence. Every counter of the two
// tiers is tied to the flows it counts through one of these sums.
module Tally {

  // The total weight of the values of a finite map.
  ghost function Total<K, V>(m: map<K, V>, w: V -> nat): nat
    decreases |m|
  {
    if |m| == 0 then 0
    else
      var k :| k in m;
      assert |m - {k}| < |m| by { Shrinks(m, k); }
      w(m[k]) + Total(m - {k}, w)
  }

  lemma Shrinks<K, V>(m: map<K, V>, k: K)
    requires k in m
    ensures |m - {k}| == |m| - 1
  {
    assert (m - {k}).Keys == m.Keys - {k};
    assert |(m - {k}).Keys| == |m.Keys| - 1;
  }

  // The key the definition takes out first.
  lemma FirstTaken<K, V>(m: map<K, V>, w: V -> nat) returns (k: K)
    requires |m| != 0
    ensures k in m && Total(m, w) == w(m[k]) + Total(m - {k}, w)
  {
    k :| k in m && Total(m, w) == w(m[k]) + Total(m - {k}, w);
  }

  // Any key may be taken out first.
  lemma {:induction false} TotalRemove<K, V>(m: map<K, V>, k: K, w: V -> nat)
    requires k in m
    ensures Total(m, w) == w(m[k]) + Total(m - {k}, w)
    decreases |m|
  {
    hide Total;
    var first := FirstTaken(m, w);
    if first != k {
      var rest, both := m - {first}, m - {first, k};
      Shrinks(m, first);
      Shrinks(m, k);
      TotalRemove(rest, k, w);
      TotalRemove(m - {k}, first, w);
      assert rest - {k} == both && m - {k} - {first} == both;
    }
  }

  function WeightAt<K(==), V>(m: map<K, V>, k: K, w: V -> nat): nat {
    if k in m then w(m[k]) else 0
  }

  lemma TotalUpdate<K, V>(m: map<K, V>, k: K, v: V, w: V -> nat)
    ensures Total(m[k := v], w) + WeightAt(m, k, w) == Total(m, w) + w(v)
  {
    hide Total;
    TotalRemove(m[k := v], k, w);
    assert m[k := v] - {k} == m - {k};
    if k in m {
      TotalRemove(m, k, w);
    } else {
      assert m - {k} == m;
    }
  }

  // The sum of two weights is the sum of the totals.
  lemma {:induction false} TotalSplit<K, V>(m: map<K, V>, w: V -> nat, u: V -> nat, v: V -> nat)
    requires forall k :: k in m ==> w(m[k]) == u(m[k]) + v(m[k])
    ensures Total(m, w) == Total(m, u) + Total(m, v)
    decreases |m|
  {
    if |m| != 0 {
      var k :| k in m;
      TotalRemove(m, k, w);
      TotalRemove(m, k, u);
      TotalRemove(m, k, v);
      Shrinks(m, k);
      TotalSplit(m - {k}, w, u, v);
    }
  }

  function Sum<V>(s: seq<V>, w: V -> nat): nat {
    if s == [] then 0 else Sum(s[..|s| - 1], w) + w(s[|s| - 1])
  }

  lemma SumSnoc<V>(s: seq<V>, v: V, w: V -> nat)
    ensures Sum(s + [v], w) == Sum(s, w) + w(v)
  {
    assert (s + [v])[..|s|] == s;
  }

  lemma {:induction false} SumSplit<V>(s: seq<V>, w: V -> nat, u: V -> nat, v: V -> nat)
    requires forall x :: x in s ==> w(x) == u(x) + v(x)
    ensures Sum(s, w) == Sum(s, u) + Sum(s, v)
  {
    if s != [] {
      SumSplit(s[..|s| - 1], w, u, v);
    }
  }

  // Replacing one element moves the sum by the difference of the two weights.
  lemma {:induction false} SumReplace<V>(s: seq<V>, i: nat, v: V, w: V -> nat)
    requires i < |s|
    ensures Sum(s[i := v], w) + w(s[i]) == Sum(s, w) + w(v)
  {
    var n := |s| - 1;
    if i < n {
      SumReplace(s[..n], i, v, w);
      assert s[i := v][..n] == s[..n][i := v];
    } else {
      assert s[i := v][..n] == s[..n];
    }
  }

  // A sequence of numbers is summed with the identity weight.
  function Plain(): nat -> nat {
    (x: nat) => x
  }
}

/** The option type and the facts about finite sets and sequences that several components share. */
module Common {

  datatype Option<+T> = None | Some(value: T)

  function Max0(x: int): nat { if x < 0 then 0 else x }

  /** No element occurs twice. */
  ghost predicate Distinct<T>(q: seq<T>) {
    forall i, j :: 0 <= i < j < |q| ==> q[i] != q[j]
  }

  ghost function Elements<T>(q: seq<T>): set<T> {
    set x | x in q
  }

  lemma {:induction false} DistinctSize<T>(q: seq<T>)
    requires Distinct(q)
    ensures |Elements(q)| == |q|
  {
    if q != [] {
      var n := |q| - 1;
      DistinctSize(q[..n]);
      assert q == q[..n] + [q[n]];
      assert Elements(q) == Elements(q[..n]) + {q[n]};
      assert q[n] !in Elements(q[..n]);
    }
  }

  /** Image of a set of keys under a map. */
  ghost function Image<K, V>(m: map<K, V>, ks: set<K>): set<V>
    requires ks <= m.Keys
  {
    set k | k in ks :: m[k]
  }

  ghost predicate Injective<K, V>(m: map<K, V>) {
    forall a, b :: a in m && b in m && m[a] == m[b] ==> a == b
  }

  lemma {:induction false} ImageSize<K, V>(m: map<K, V>, ks: set<K>)
    requires ks <= m.Keys
    requires Injective(m)
    ensures |Image(m, ks)| == |ks|
    decreases |ks|
  {
    if ks != {} {
      var k :| k in ks;
      ImageSize(m, ks - {k});
      assert Image(m, ks) == Image(m, ks - {k}) + {m[k]};
      assert m[k] !in Image(m, ks - {k});
    } else {
      assert Image(m, ks) == {};
    }
  }

  lemma {:induction false} SubsetSize<T>(a: set<T>, b: set<T>)
    requires a <= b
    ensures |a| <= |b|
    ensures |a| == |b| ==> a == b
  {
    assert b == a + (b - a);
    assert |b| == |a| + |b - a|;
  }

  lemma SplitSize<T>(a: set<T>, b: set<T>)
    ensures |a - b| + |a * b| == |a|
  {
    assert a == (a - b) + (a * b);
  }

  predicate InRange(i: nat, n: nat) { i < n }

  /** The numbers below n. */
  function Below(n: nat): (s: set<nat>)
    ensures |s| == n
  {
    InRangeSize(n);
    set i: nat | i < n && InRange(i, n)
  }

  lemma {:induction false} InRangeSize(n: nat)
    ensures |set i: nat | i < n && InRange(i, n)| == n
  {
    if n > 0 {
      var m := n - 1;
      InRangeSize(m);
      assert (set i: nat | i < n && InRange(i, n)) == (set i: nat | i < m && InRange(i, m)) + {m};
    }
  }
}

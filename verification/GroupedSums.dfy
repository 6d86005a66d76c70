/** Dictionaries that collect sums by key, in the order in which keys first appear, and what
    summing the groups gives back. The sums are values of any commutative monoid. */
module GroupedSums {

  predicate Neutral<V(==)>(zero: V, add: (V, V) -> V, a: V) { add(zero, a) == a }

  predicate Commutes<V(==)>(add: (V, V) -> V, a: V, b: V) { add(a, b) == add(b, a) }

  predicate Associates<V(==)>(add: (V, V) -> V, a: V, b: V, c: V) { add(add(a, b), c) == add(a, add(b, c)) }

  ghost predicate Monoid<V(!new)>(zero: V, add: (V, V) -> V) {
    && (forall a :: Neutral(zero, add, a))
    && (forall a, b :: Commutes(add, a, b))
    && (forall a, b, c :: Associates(add, a, b, c))
  }

  datatype Groups<K, V> = Groups(keys: seq<K>, at: map<K, V>)

  predicate Proper<K(==), V>(g: Groups<K, V>) {
    && (forall k <- g.keys :: k in g.at) && (forall k <- g.at :: k in g.keys)
    && (forall i, j :: 0 <= i < j < |g.keys| ==> g.keys[i] != g.keys[j])
  }

  function Empty<K, V>(): Groups<K, V> { Groups([], map[]) }

  /** Adds `v` to the group of `k`, which is created if it is new. */
  function Put<K, V>(g: Groups<K, V>, k: K, v: V, zero: V, add: (V, V) -> V): Groups<K, V> {
    if k in g.at then Groups(g.keys, g.at[k := add(g.at[k], v)])
    else Groups(g.keys + [k], g.at[k := add(zero, v)])
  }

  /** The sum over the first `n` groups. */
  function Total<K, V>(g: Groups<K, V>, n: nat, zero: V, add: (V, V) -> V): V
    requires Proper(g) && n <= |g.keys|
  {
    if n == 0 then zero else add(Total(g, n - 1, zero, add), g.at[g.keys[n - 1]])
  }

  /** The plain sum of a list. */
  function Sum<V>(vs: seq<V>, zero: V, add: (V, V) -> V): V {
    if vs == [] then zero else add(Sum(vs[..|vs| - 1], zero, add), vs[|vs| - 1])
  }

  /** The values of a list collected under their keys. */
  function Collect<K, V>(ks: seq<K>, vs: seq<V>, zero: V, add: (V, V) -> V): Groups<K, V>
    requires |ks| == |vs|
  {
    if ks == [] then Empty()
    else
      var n := |ks| - 1;
      Put(Collect(ks[..n], vs[..n], zero, add), ks[n], vs[n], zero, add)
  }

  lemma CollectAppend<K, V>(ks: seq<K>, vs: seq<V>, k: K, v: V, zero: V, add: (V, V) -> V)
    requires |ks| == |vs|
    ensures Collect(ks + [k], vs + [v], zero, add) == Put(Collect(ks, vs, zero, add), k, v, zero, add)
  {
    assert (ks + [k])[..|ks|] == ks && (vs + [v])[..|vs|] == vs;
  }

  lemma {:induction false} TotalUnchanged<K, V>(g: Groups<K, V>, h: Groups<K, V>, n: nat, zero: V, add: (V, V) -> V)
    requires Proper(g) && Proper(h) && n <= |g.keys| && n <= |h.keys|
    requires forall i :: 0 <= i < n ==> g.keys[i] == h.keys[i] && g.at[g.keys[i]] == h.at[h.keys[i]]
    ensures Total(g, n, zero, add) == Total(h, n, zero, add)
    decreases n
  {
    if n > 0 {
      TotalUnchanged(g, h, n - 1, zero, add);
    }
  }

  lemma {:induction false} TotalUpdated<K, V(!new)>(g: Groups<K, V>, h: Groups<K, V>, n: nat, at: nat, v: V, zero: V, add: (V, V) -> V)
    requires Monoid(zero, add) && Proper(g) && Proper(h) && g.keys == h.keys && at < n <= |g.keys|
    requires h.at[g.keys[at]] == add(g.at[g.keys[at]], v)
    requires forall i :: 0 <= i < n && i != at ==> g.at[g.keys[i]] == h.at[g.keys[i]]
    ensures Total(h, n, zero, add) == add(Total(g, n, zero, add), v)
    decreases n
  {
    var before, x := Total(g, n - 1, zero, add), g.at[g.keys[n - 1]];
    if at == n - 1 {
      TotalUnchanged(g, h, n - 1, zero, add);
      assert Associates(add, before, x, v);
    } else {
      TotalUpdated(g, h, n - 1, at, v, zero, add);
      assert Associates(add, before, v, x) && Commutes(add, v, x) && Associates(add, before, x, v);
    }
  }

  /** Putting a value adds it to the sum over all groups. */
  lemma PutAddsToTotal<K, V(!new)>(g: Groups<K, V>, k: K, v: V, zero: V, add: (V, V) -> V)
    requires Monoid(zero, add) && Proper(g)
    ensures var h := Put(g, k, v, zero, add);
            Proper(h) && Total(h, |h.keys|, zero, add) == add(Total(g, |g.keys|, zero, add), v)
  {
    var h := Put(g, k, v, zero, add);
    if k in g.at {
      var at :| 0 <= at < |g.keys| && g.keys[at] == k;
      assert Proper(h);
      TotalUpdated(g, h, |g.keys|, at, v, zero, add);
    } else {
      assert k in h.keys by {
        assert h.keys[|g.keys|] == k;
      }
      forall x ensures x in h.keys <==> x in h.at {
        assert x in h.keys <==> x in g.keys || x == k;
      }
      TotalUnchanged(g, h, |g.keys|, zero, add);
      assert Neutral(zero, add, v);
    }
  }

  /** Summing the groups gives the plain sum: nothing is lost or counted twice by grouping. */
  lemma {:induction false} CollectKeepsSum<K, V(!new)>(ks: seq<K>, vs: seq<V>, zero: V, add: (V, V) -> V)
    requires Monoid(zero, add) && |ks| == |vs|
    ensures var g := Collect(ks, vs, zero, add);
            Proper(g) && Total(g, |g.keys|, zero, add) == Sum(vs, zero, add)
            && (forall k <- ks :: k in g.at) && forall k <- g.at :: k in ks
    decreases |ks|
  {
    if ks != [] {
      var n := |ks| - 1;
      CollectKeepsSum(ks[..n], vs[..n], zero, add);
      PutAddsToTotal(Collect(ks[..n], vs[..n], zero, add), ks[n], vs[n], zero, add);
      assert ks == ks[..n] + [ks[n]];
    }
  }

  /** A group holds the sum of the values that carry its key. */
  function ValuesOf<K(==), V>(ks: seq<K>, vs: seq<V>, k: K): seq<V>
    requires |ks| == |vs|
  {
    if ks == [] then []
    else
      var n := |ks| - 1;
      ValuesOf(ks[..n], vs[..n], k) + if ks[n] == k then [vs[n]] else []
  }

  lemma {:induction false} GroupIsSumOfItsValues<K, V(!new)>(ks: seq<K>, vs: seq<V>, k: K, zero: V, add: (V, V) -> V)
    requires Monoid(zero, add) && |ks| == |vs|
    ensures var g := Collect(ks, vs, zero, add);
            (if k in g.at then g.at[k] else zero) == Sum(ValuesOf(ks, vs, k), zero, add)
    decreases |ks|
  {
    if ks != [] {
      var n := |ks| - 1;
      GroupIsSumOfItsValues(ks[..n], vs[..n], k, zero, add);
      var rest := ValuesOf(ks[..n], vs[..n], k);
      assert (rest + [vs[n]])[..|rest|] == rest;
      assert rest + [] == rest;
      assert Neutral(zero, add, vs[n]);
    }
  }

  lemma {:induction false} ValuesOfAppend<K, V>(ks: seq<K>, vs: seq<V>, ls: seq<K>, ws: seq<V>, k: K)
    requires |ks| == |vs| && |ls| == |ws|
    ensures ValuesOf(ks + ls, vs + ws, k) == ValuesOf(ks, vs, k) + ValuesOf(ls, ws, k)
    decreases |ls|
  {
    if ls == [] {
      assert ks + ls == ks && vs + ws == vs;
    } else {
      var n := |ls| - 1;
      ValuesOfAppend(ks, vs, ls[..n], ws[..n], k);
      assert (ks + ls)[..|ks| + n] == ks + ls[..n] && (vs + ws)[..|ks| + n] == vs + ws[..n];
    }
  }

  lemma {:induction false} SumAppend<V(!new)>(vs: seq<V>, ws: seq<V>, zero: V, add: (V, V) -> V)
    requires Monoid(zero, add)
    ensures Sum(vs + ws, zero, add) == add(Sum(vs, zero, add), Sum(ws, zero, add))
    decreases |ws|
  {
    var a := Sum(vs, zero, add);
    if ws == [] {
      assert vs + ws == vs;
      assert Neutral(zero, add, a) && Commutes(add, a, zero);
    } else {
      var n := |ws| - 1;
      SumAppend(vs, ws[..n], zero, add);
      assert (vs + ws)[..|vs| + n] == vs + ws[..n];
      assert Associates(add, a, Sum(ws[..n], zero, add), ws[n]);
    }
  }
}

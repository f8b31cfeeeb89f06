/**
 * Python dictionaries, which remember insertion order: a dictionary is the sequence of its
 * (key, value) entries in insertion order. Assigning to a present key replaces its value in
 * place; assigning to a new key appends an entry.
 */
module OrderedDict {
  import opened Wrappers

  function Keys<K, V>(d: seq<(K, V)>): (ks: seq<K>)
    ensures |ks| == |d|
    ensures forall i :: 0 <= i < |d| ==> ks[i] == d[i].0
  {
    if d == [] then [] else [d[0].0] + Keys(d[1..])
  }

  predicate Distinct<K(==)>(ks: seq<K>) {
    forall i, j :: 0 <= i < j < |ks| ==> ks[i] != ks[j]
  }

  /** `d.get(k)`: the value stored under `k`, if any. */
  function Lookup<K(==), V>(d: seq<(K, V)>, k: K): (r: Option<V>)
    ensures r.None? <==> k !in Keys(d)
  {
    if d == [] then None
    else if d[0].0 == k then Some(d[0].1)
    else Lookup(d[1..], k)
  }

  /** `d[k] = v`. */
  function Put<K(==, !new), V>(d: seq<(K, V)>, k: K, v: V): (r: seq<(K, V)>)
    ensures Lookup(r, k) == Some(v)
    ensures forall k' :: k' != k ==> Lookup(r, k') == Lookup(d, k')
  {
    if d == [] then [(k, v)]
    else if d[0].0 == k then
      var r := [(k, v)] + d[1..];
      assert r[1..] == d[1..];
      r
    else
      var tail := Put(d[1..], k, v);
      var r := [d[0]] + tail;
      assert r[0] == d[0] && r[1..] == tail;
      r
  }

  lemma ConsSnoc<T>(x: T, s: seq<T>, y: T)
    ensures [x] + (s + [y]) == ([x] + s) + [y]
  {
  }

  /** A present key keeps its place; a new key goes after all the others. */
  lemma {:induction false} PutKeys<K(!new), V>(d: seq<(K, V)>, k: K, v: V)
    ensures k in Keys(d) ==> Keys(Put(d, k, v)) == Keys(d)
    ensures k !in Keys(d) ==> Keys(Put(d, k, v)) == Keys(d) + [k]
  {
    if d != [] {
      var first, rest, r := d[0], d[1..], Put(d, k, v);
      assert Keys(d) == [first.0] + Keys(rest);
      if first.0 == k {
        assert r[1..] == rest;
        assert Keys(r) == [k] + Keys(r[1..]);
      } else {
        PutKeys(rest, k, v);
        assert r[1..] == Put(rest, k, v);
        assert Keys(r) == [first.0] + Keys(r[1..]);
        if k !in Keys(d) {
          ConsSnoc(first.0, Keys(rest), k);
        }
      }
    }
  }

  /** Assigning a key keeps the keys distinct. */
  lemma PutDistinct<K(!new), V>(d: seq<(K, V)>, k: K, v: V)
    requires Distinct(Keys(d))
    ensures Distinct(Keys(Put(d, k, v)))
  {
    var ks := Keys(d);
    PutKeys(d, k, v);
    if k !in ks {
      assert Keys(Put(d, k, v)) == ks + [k];
    }
  }

  /** The value last paired with `k` in `ps`, if `k` occurs at all. */
  function LastValue<K(==), V>(ps: seq<(K, V)>, k: K): Option<V> {
    if ps == [] then None
    else if ps[|ps| - 1].0 == k then Some(ps[|ps| - 1].1)
    else LastValue(ps[..|ps| - 1], k)
  }

  /** `dict(ps)`: the dictionary built by assigning the pairs of `ps` from first to last. */
  function FromPairs<K(==, !new), V>(ps: seq<(K, V)>): seq<(K, V)> {
    if ps == [] then [] else Put(FromPairs(ps[..|ps| - 1]), ps[|ps| - 1].0, ps[|ps| - 1].1)
  }

  /** Every key of `dict(ps)` maps to the last value `ps` pairs with it, and nothing else is a key. */
  lemma {:induction false} FromPairsLookup<K(!new), V>(ps: seq<(K, V)>, k: K)
    ensures Lookup(FromPairs(ps), k) == LastValue(ps, k)
  {
    if ps != [] {
      FromPairsLookup(ps[..|ps| - 1], k);
    }
  }

  /** The keys of `dict(ps)` are distinct. */
  lemma {:induction false} FromPairsDistinct<K(!new), V>(ps: seq<(K, V)>)
    ensures Distinct(Keys(FromPairs(ps)))
  {
    if ps != [] {
      FromPairsDistinct(ps[..|ps| - 1]);
      PutDistinct(FromPairs(ps[..|ps| - 1]), ps[|ps| - 1].0, ps[|ps| - 1].1);
    }
  }

  /** Python's `zip(xs, ys)`: pairs up to the shorter length. */
  function Zip<X, Y>(xs: seq<X>, ys: seq<Y>): (r: seq<(X, Y)>)
    ensures |r| == if |xs| <= |ys| then |xs| else |ys|
    ensures forall i :: 0 <= i < |r| ==> r[i] == (xs[i], ys[i])
  {
    if xs == [] || ys == [] then [] else [(xs[0], ys[0])] + Zip(xs[1..], ys[1..])
  }

  /** With distinct keys, `dict(ps)` keeps every pair, in order. */
  lemma {:induction false} FromPairsOfDistinct<K(!new), V>(ps: seq<(K, V)>)
    requires Distinct(Keys(ps))
    ensures FromPairs(ps) == ps
  {
    var n := |ps|;
    if n > 0 {
      var init, last := ps[..n - 1], ps[n - 1];
      assert Keys(init) == Keys(ps)[..n - 1];
      FromPairsOfDistinct(init);
      assert last.0 !in Keys(init);
      PutAppends(init, last.0, last.1);
      InitLast(ps);
    }
  }

  /** A non-empty sequence is its prefix followed by its last element. */
  lemma InitLast<T>(s: seq<T>)
    requires s != []
    ensures s[..|s| - 1] + [s[|s| - 1]] == s
  {
  }

  /** Assigning a new key appends its entry. */
  lemma {:induction false} PutAppends<K(!new), V>(d: seq<(K, V)>, k: K, v: V)
    requires k !in Keys(d)
    ensures Put(d, k, v) == d + [(k, v)]
  {
    if d != [] {
      var first, rest := d[0], d[1..];
      assert k != first.0;
      assert Keys(rest) == Keys(d)[1..];
      PutAppends(rest, k, v);
      assert Put(d, k, v) == [first] + Put(rest, k, v);
      assert d == [first] + rest;
      ConsSnoc(first, rest, (k, v));
    }
  }

  /**
   * `dict(zip(xs, ys))` for distinct keys and as many values as keys: its entries are exactly
   * the pairs `(xs[i], ys[i])` in order, so each `xs[i]` maps to `ys[i]`.
   */
  lemma ZipDict<K(!new), V>(xs: seq<K>, ys: seq<V>)
    requires Distinct(xs) && |xs| == |ys|
    ensures FromPairs(Zip(xs, ys)) == Zip(xs, ys)
    ensures Keys(FromPairs(Zip(xs, ys))) == xs
    ensures forall i :: 0 <= i < |xs| ==> FromPairs(Zip(xs, ys))[i] == (xs[i], ys[i])
  {
    assert Keys(Zip(xs, ys)) == xs;
    FromPairsOfDistinct(Zip(xs, ys));
  }
}

/** Python dictionaries as insertion-ordered association lists: iteration
    (`items()`) follows the sequence, `d[k] = v` replaces a present key in place
    and appends a new one, and `del d[k]` drops the entry. */
module Dicts {
  import opened Wrappers

  type Dict<K, V> = seq<(K, V)>

  function Keys<K, V>(d: Dict<K, V>): set<K> {
    set i | 0 <= i < |d| :: d[i].0
  }

  /** Every key occurs once, as in any Python dict. */
  predicate UniqueKeys<K(==), V>(d: Dict<K, V>) {
    forall i, j :: 0 <= i < j < |d| ==> d[i].0 != d[j].0
  }

  /** `d.get(k)`: the value of the first entry with key `k`. */
  function Get<K(==), V>(d: Dict<K, V>, k: K): (r: Option<V>)
    ensures r.Some? <==> k in Keys(d)
    ensures r.Some? ==> (k, r.value) in d
  {
    if d == [] then None
    else if d[0].0 == k then Some(d[0].1)
    else
      assert Keys(d) == {d[0].0} + Keys(d[1..]) by { KeysCons(d); }
      Get(d[1..], k)
  }

  /** `d[k] = v` */
  function Put<K(==, !new), V>(d: Dict<K, V>, k: K, v: V): (r: Dict<K, V>)
    ensures Keys(r) == Keys(d) + {k}
  {
    if d == [] then
      KeysCons([(k, v)]);
      [(k, v)]
    else if d[0].0 == k then
      var r := [(k, v)] + d[1..];
      KeysCons(d);
      KeysCons(r);
      assert r[1..] == d[1..];
      r
    else
      var rest := Put(d[1..], k, v);
      var r := [d[0]] + rest;
      KeysCons(d);
      KeysCons(r);
      assert r[1..] == rest;
      r
  }

  /** After `d[k] = v`, `k` maps to `v` and every other key to what it did before. */
  lemma {:induction false} PutGet<K(!new), V>(d: Dict<K, V>, k: K, v: V, j: K)
    ensures Get(Put(d, k, v), j) == if j == k then Some(v) else Get(d, j)
  {
    if d != [] && d[0].0 != k {
      PutGet(d[1..], k, v, j);
    }
  }

  /** Assignment keeps every key unique. */
  lemma {:induction false} PutKeepsUniqueKeys<K(!new), V>(d: Dict<K, V>, k: K, v: V)
    requires UniqueKeys(d)
    ensures UniqueKeys(Put(d, k, v))
  {
    if d != [] {
      UniqueSplit(d);
      if d[0].0 == k {
        UniqueCons((k, v), d[1..]);
      } else {
        PutKeepsUniqueKeys(d[1..], k, v);
        UniqueCons(d[0], Put(d[1..], k, v));
      }
    }
  }

  lemma UniqueSplit<K, V>(d: Dict<K, V>)
    requires UniqueKeys(d) && d != []
    ensures UniqueKeys(d[1..]) && d[0].0 !in Keys(d[1..])
  {
    var t := d[1..];
    forall i | 0 <= i < |t| ensures t[i].0 != d[0].0 {
      assert t[i] == d[i + 1];
    }
    forall i, j | 0 <= i < j < |t| ensures t[i].0 != t[j].0 {
      assert t[i] == d[i + 1] && t[j] == d[j + 1];
    }
  }

  lemma UniqueCons<K, V>(x: (K, V), t: Dict<K, V>)
    requires UniqueKeys(t) && x.0 !in Keys(t)
    ensures UniqueKeys([x] + t)
  {
    var d := [x] + t;
    forall i, j | 0 <= i < j < |d| ensures d[i].0 != d[j].0 {
      assert d[j] == t[j - 1];
      if i == 0 {
        assert t[j - 1].0 in Keys(t);
      } else {
        assert d[i] == t[i - 1];
      }
    }
  }

  /** The dictionary without the entries whose keys are in `ks` (`del d[k]` for each). */
  function Without<K(==, !new), V(!new)>(d: Dict<K, V>, ks: set<K>): (r: Dict<K, V>)
    ensures Keys(r) == Keys(d) - ks
    ensures UniqueKeys(d) ==> UniqueKeys(r)
    ensures forall k :: Get(r, k) == if k in ks then None else Get(d, k)
    ensures forall e :: e in r <==> e in d && e.0 !in ks
  {
    if d == [] then []
    else
      var rest := Without(d[1..], ks);
      KeysCons(d);
      if d[0].0 in ks then rest
      else
        KeysCons([d[0]] + rest);
        assert ([d[0]] + rest)[1..] == rest;
        [d[0]] + rest
  }

  lemma KeysCons<K, V>(d: Dict<K, V>)
    requires d != []
    ensures Keys(d) == {d[0].0} + Keys(d[1..])
  {
    forall k | k in Keys(d) ensures k in {d[0].0} + Keys(d[1..]) {
      var i :| 0 <= i < |d| && d[i].0 == k;
      if i > 0 { assert d[1..][i - 1] == d[i]; }
    }
    forall k | k in Keys(d[1..]) ensures k in Keys(d) {
      var i :| 0 <= i < |d[1..]| && d[1..][i].0 == k;
      assert d[i + 1] == d[1..][i];
    }
  }

  /** Deleting keys one after another is deleting them all at once. */
  lemma {:induction false} WithoutWithout<K(!new), V(!new)>(d: Dict<K, V>, a: set<K>, b: set<K>)
    ensures Without(Without(d, a), b) == Without(d, a + b)
  {
    if d != [] {
      WithoutWithout(d[1..], a, b);
    }
  }

  /** Assigning a key that is then deleted leaves no trace. */
  lemma {:induction false} WithoutPut<K(!new), V(!new)>(d: Dict<K, V>, k: K, v: V, ks: set<K>)
    requires k in ks
    ensures Without(Put(d, k, v), ks) == Without(d, ks)
  {
    if d != [] && d[0].0 != k {
      WithoutPut(d[1..], k, v, ks);
    }
  }

  /** `len(d)` is the number of distinct keys. */
  lemma {:induction false} SizeIsKeyCount<K, V>(d: Dict<K, V>)
    requires UniqueKeys(d)
    ensures |Keys(d)| == |d|
  {
    if d != [] {
      KeysCons(d);
      SizeIsKeyCount(d[1..]);
      forall i | 0 <= i < |d[1..]| ensures d[1..][i].0 != d[0].0 {
        assert d[1..][i] == d[i + 1];
      }
    }
  }

  /** Deleting keys that are absent leaves the dictionary as it was. */
  lemma {:induction false} WithoutAbsent<K(!new), V(!new)>(d: Dict<K, V>, ks: set<K>)
    requires Keys(d) !! ks
    ensures Without(d, ks) == d
  {
    if d != [] {
      KeysCons(d);
      WithoutAbsent(d[1..], ks);
    }
  }
}

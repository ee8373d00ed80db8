/**
 * Grouping a list into a dictionary of lists, the idiom
 * `d.setdefault(key(x), []).append(val(x))` written out with an explicit
 * membership test.  The keys keep their insertion order, as a Python dict
 * does, and each list keeps the order of the input.
 */
module Grouping {
  import opened Text

  /** The distinct keys of `s`, first occurrence first. */
  function Keys<T, K(==)>(s: seq<T>, key: T -> K): seq<K>
    decreases |s|
  {
    if s == [] then []
    else
      var ks := Keys(s[..|s| - 1], key);
      var k := key(s[|s| - 1]);
      if k in ks then ks else ks + [k]
  }

  /** The values filed under `k`, in input order. */
  function Values<T, K(==), V>(s: seq<T>, key: T -> K, val: T -> V, k: K): seq<V>
    decreases |s|
  {
    if s == [] then []
    else Values(s[..|s| - 1], key, val, k) + (if key(s[|s| - 1]) == k then [val(s[|s| - 1])] else [])
  }

  lemma ValuesSnoc<T, K, V>(s: seq<T>, x: T, key: T -> K, val: T -> V, k: K)
    ensures Values(s + [x], key, val, k) == Values(s, key, val, k) + (if key(x) == k then [val(x)] else [])
  {
    assert (s + [x])[..|s|] == s;
  }

  lemma KeysSnoc<T, K>(s: seq<T>, x: T, key: T -> K)
    ensures Keys(s + [x], key) == if key(x) in Keys(s, key) then Keys(s, key) else Keys(s, key) + [key(x)]
  {
    assert (s + [x])[..|s|] == s;
  }

  /** The keys have no repeats, and a key is present exactly when something is filed under it. */
  lemma {:induction false} KeysExact<T, K, V>(s: seq<T>, key: T -> K, val: T -> V)
    ensures NoRepeats(Keys(s, key))
    ensures forall x :: x in s ==> key(x) in Keys(s, key)
    ensures forall k :: k in Keys(s, key) <==> Values(s, key, val, k) != []
    decreases |s|
  {
    if s != [] {
      var init := s[..|s| - 1];
      var x := s[|s| - 1];
      assert s == init + [x];
      KeysExact(init, key, val);
      KeysSnoc(init, x, key);
      forall k ensures k in Keys(s, key) <==> Values(s, key, val, k) != [] {
        ValuesSnoc(init, x, key, val, k);
      }
    }
  }

  /** A key that never occurs has nothing filed under it. */
  lemma ValuesEmpty<T, K, V>(s: seq<T>, key: T -> K, val: T -> V, k: K)
    requires k !in Keys(s, key)
    ensures Values(s, key, val, k) == []
  {
    KeysExact(s, key, val);
  }

  /** A value is filed under `k` exactly when some element with key `k` yields it. */
  lemma {:induction false} ValuesIff<T, K, V>(s: seq<T>, key: T -> K, val: T -> V, k: K, v: V)
    ensures v in Values(s, key, val, k) <==> exists x :: x in s && key(x) == k && val(x) == v
    decreases |s|
  {
    if s != [] {
      var init := s[..|s| - 1];
      var last := s[|s| - 1];
      assert s == init + [last];
      ValuesIff(init, key, val, k, v);
      if x :| x in s && key(x) == k && val(x) == v {
        if x != last {
          assert x in init;
        }
      }
    }
  }

  /** `m`, with key order `keys`, is the grouping of `s`. */
  ghost predicate Grouped<T, K(!new), V>(s: seq<T>, key: T -> K, val: T -> V, m: map<K, seq<V>>, keys: seq<K>) {
    && keys == Keys(s, key)
    && (forall k :: k in m <==> k in keys)
    && (forall k :: k in m ==> m[k] == Values(s, key, val, k))
  }

  /** An element with a key already present goes at the end of that key's list. */
  lemma GroupedSnocKnown<T, K(!new), V>(s: seq<T>, x: T, key: T -> K, val: T -> V, m: map<K, seq<V>>, keys: seq<K>)
    requires Grouped(s, key, val, m, keys) && key(x) in m
    ensures Grouped(s + [x], key, val, m[key(x) := m[key(x)] + [val(x)]], keys)
  {
    KeysSnoc(s, x, key);
    var m' := m[key(x) := m[key(x)] + [val(x)]];
    forall k | k in m' ensures m'[k] == Values(s + [x], key, val, k) {
      ValuesSnoc(s, x, key, val, k);
    }
  }

  /** An element with a new key: the key becomes the last one, holding just that value. */
  lemma GroupedSnocNew<T, K(!new), V>(s: seq<T>, x: T, key: T -> K, val: T -> V, m: map<K, seq<V>>, keys: seq<K>)
    requires Grouped(s, key, val, m, keys) && key(x) !in m
    ensures Grouped(s + [x], key, val, m[key(x) := [val(x)]], keys + [key(x)])
  {
    KeysSnoc(s, x, key);
    ValuesEmpty(s, key, val, key(x));
    var m' := m[key(x) := [val(x)]];
    forall k | k in m' ensures m'[k] == Values(s + [x], key, val, k) {
      ValuesSnoc(s, x, key, val, k);
    }
  }

  /** The number of values filed under the keys `ks`. */
  ghost function Filed<T, K, V>(s: seq<T>, key: T -> K, val: T -> V, ks: seq<K>): nat
    decreases |ks|
  {
    if ks == [] then 0 else Filed(s, key, val, ks[..|ks| - 1]) + |Values(s, key, val, ks[|ks| - 1])|
  }

  lemma {:induction false} FiledSnoc<T, K, V>(s: seq<T>, x: T, key: T -> K, val: T -> V, ks: seq<K>)
    ensures Filed(s + [x], key, val, ks) == Filed(s, key, val, ks) + multiset(ks)[key(x)]
    decreases |ks|
  {
    if ks != [] {
      var init := ks[..|ks| - 1];
      var k := ks[|ks| - 1];
      assert ks == init + [k];
      FiledSnoc(s, x, key, val, init);
      ValuesSnoc(s, x, key, val, k);
    }
  }

  /** Taking one key out of the list removes exactly its values. */
  lemma {:induction false} FiledRemove<T, K, V>(s: seq<T>, key: T -> K, val: T -> V, ks: seq<K>, j: int)
    requires 0 <= j < |ks|
    ensures Filed(s, key, val, ks) == Filed(s, key, val, ks[..j] + ks[j + 1..]) + |Values(s, key, val, ks[j])|
    decreases |ks|
  {
    var init := ks[..|ks| - 1];
    if j == |ks| - 1 {
      assert ks[..j] + ks[j + 1..] == init;
    } else {
      var rest := ks[..j] + ks[j + 1..];
      assert rest[..|rest| - 1] == init[..j] + init[j + 1..];
      assert rest[|rest| - 1] == ks[|ks| - 1];
      FiledRemove(s, key, val, init, j);
    }
  }

  /** The count does not depend on the order of the keys. */
  lemma {:induction false} FiledPermutation<T, K, V>(s: seq<T>, key: T -> K, val: T -> V, a: seq<K>, b: seq<K>)
    requires multiset(a) == multiset(b)
    ensures Filed(s, key, val, a) == Filed(s, key, val, b)
    decreases |a|
  {
    if a == [] {
      assert |b| == |multiset(b)| == 0;
    } else {
      var x := a[|a| - 1];
      var init := a[..|a| - 1];
      assert a == init + [x];
      assert multiset(a) == multiset(init) + multiset{x};
      assert x in multiset(b);
      var j :| 0 <= j < |b| && b[j] == x;
      var rest := b[..j] + b[j + 1..];
      MultisetRemoveAt(b, j);
      assert multiset(init) == multiset(a) - multiset{x};
      FiledPermutation(s, key, val, init, rest);
      FiledRemove(s, key, val, b, j);
    }
  }

  /** Over its own keys every element is filed exactly once. */
  lemma {:induction false} FiledAll<T, K, V>(s: seq<T>, key: T -> K, val: T -> V)
    ensures Filed(s, key, val, Keys(s, key)) == |s|
    decreases |s|
  {
    if s != [] {
      var init := s[..|s| - 1];
      var x := s[|s| - 1];
      var k := key(x);
      var ks := Keys(init, key);
      assert s == init + [x];
      FiledAll(init, key, val);
      KeysSnoc(init, x, key);
      FiledSnoc(init, x, key, val, ks);
      if k in ks {
        KeysExact(init, key, val);
        NoRepeatsCount(ks, k);
        assert Filed(s, key, val, ks) == |init| + 1;
      } else {
        ValuesEmpty(init, key, val, k);
        ValuesSnoc(init, x, key, val, k);
        assert multiset(ks)[k] == 0;
        assert (ks + [k])[..|ks|] == ks;
        assert Filed(s, key, val, ks + [k]) == Filed(s, key, val, ks) + |Values(s, key, val, k)|;
      }
    }
  }
}

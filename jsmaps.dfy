/** JavaScript's `Map` (and a plain object used as a dictionary): a finite map that remembers the
    order in which keys were first inserted. Setting an existing key keeps its position; deleting a
    key and setting it again moves it to the end. */
module JsMaps {
  import opened Wrappers

  predicate Distinct<K(==)>(s: seq<K>) {
    forall i, j :: 0 <= i < j < |s| ==> s[i] != s[j]
  }

  /** `s` with every occurrence of `k` removed, order otherwise kept. */
  function Without<K(==)>(s: seq<K>, k: K): (r: seq<K>)
    ensures forall x :: x in r ==> x in s && x != k
    ensures forall x :: x in s && x != k ==> x in r
    ensures Distinct(s) ==> Distinct(r)
    ensures k !in s ==> r == s
    decreases |s|
  {
    if s == [] then []
    else
      var rest := Without(s[1..], k);
      assert Distinct(s) ==> Distinct(s[1..]) && s[0] !in rest by {
        if Distinct(s) {
          assert forall i :: 1 <= i < |s| ==> s[0] != s[i];
        }
      }
      (if s[0] == k then [] else [s[0]]) + rest
  }

  datatype JsMap<K(==), V> = JsMap(keys: seq<K>, values: map<K, V>) {

    /** The insertion order lists every key exactly once. */
    ghost predicate Valid() {
      && Distinct(keys)
      && (forall k :: k in values ==> k in keys)
      && (forall k :: k in keys ==> k in values)
    }

    /** `m.set(k, v)`. */
    function Set(k: K, v: V): (r: JsMap<K, V>)
      ensures r.values == values[k := v]
      ensures r.keys == if k in values then keys else keys + [k]
      ensures Valid() ==> r.Valid()
    {
      if k in values then JsMap(keys, values[k := v]) else JsMap(keys + [k], values[k := v])
    }

    /** `m.delete(k)`. */
    function Delete(k: K): (r: JsMap<K, V>)
      ensures r.values == values - {k}
      ensures r.keys == Without(keys, k)
      ensures Valid() ==> r.Valid()
    {
      JsMap(Without(keys, k), values - {k})
    }

    /** `m.get(k)`, with `undefined` as None. */
    function Get(k: K): Option<V> {
      if k in values then Some(values[k]) else None
    }
  }

  function EmptyMap<K(==), V>(): (m: JsMap<K, V>)
    ensures m.Valid() && m.values == map[]
  {
    JsMap([], map[])
  }

  /** Sum of the counts stored under `keys`. */
  function SumOver<K(==)>(keys: seq<K>, m: map<K, nat>): nat
    decreases |keys|
  {
    if keys == [] then 0 else (if keys[0] in m then m[keys[0]] else 0) + SumOver(keys[1..], m)
  }

  /** Sum of all counts of a tally. */
  function Total<K(==)>(m: JsMap<K, nat>): nat {
    SumOver(m.keys, m.values)
  }

  /** `counts[k] = (counts[k] || 0) + 1`. */
  function Bump<K(==)>(m: JsMap<K, nat>, k: K): (r: JsMap<K, nat>)
    ensures m.Valid() ==> r.Valid()
    ensures r.values == m.values[k := (if k in m.values then m.values[k] else 0) + 1]
  {
    m.Set(k, (if k in m.values then m.values[k] else 0) + 1)
  }

  lemma {:induction false} SumOverAgree<K>(keys: seq<K>, m: map<K, nat>, m': map<K, nat>)
    requires forall k :: k in keys ==> (k in m <==> k in m') && (k in m ==> m[k] == m'[k])
    ensures SumOver(keys, m) == SumOver(keys, m')
    decreases |keys|
  {
    if keys != [] {
      SumOverAgree(keys[1..], m, m');
    }
  }

  lemma {:induction false} SumOverAppend<K>(keys: seq<K>, m: map<K, nat>, k: K)
    ensures SumOver(keys + [k], m) == SumOver(keys, m) + (if k in m then m[k] else 0)
    decreases |keys|
  {
    if keys == [] {
      assert SumOver([k], m) == (if k in m then m[k] else 0) + SumOver([], m);
    } else {
      assert (keys + [k])[1..] == keys[1..] + [k];
      SumOverAppend(keys[1..], m, k);
    }
  }

  lemma {:induction false} SumOverIncrement<K>(keys: seq<K>, m: map<K, nat>, k: K)
    requires Distinct(keys) && k in keys && k in m
    ensures SumOver(keys, m[k := m[k] + 1]) == SumOver(keys, m) + 1
    decreases |keys|
  {
    if keys[0] == k {
      assert k !in keys[1..];
      SumOverAgree(keys[1..], m, m[k := m[k] + 1]);
    } else {
      assert k in keys[1..];
      SumOverIncrement(keys[1..], m, k);
    }
  }

  /** Counting one more occurrence raises the total by exactly one. */
  lemma BumpTotal<K>(m: JsMap<K, nat>, k: K)
    requires m.Valid()
    ensures Total(Bump(m, k)) == Total(m) + 1
  {
    if k in m.values {
      SumOverIncrement(m.keys, m.values, k);
    } else {
      var m' := m.values[k := 1];
      SumOverAppend(m.keys, m', k);
      SumOverAgree(m.keys, m.values, m');
    }
  }
}

/**
 * A JavaScript `Map`: a list of entries in insertion order in which every key
 * occurs once. `set` on a present key replaces its value in place; on a new
 * key it appends an entry.
 */
module JsMap {
  import opened Wrappers

  type Entries<K, V> = seq<(K, V)>

  ghost predicate HasKey<K, V>(m: Entries<K, V>, k: K) {
    exists i :: 0 <= i < |m| && m[i].0 == k
  }

  ghost predicate DistinctKeys<K, V>(m: Entries<K, V>) {
    forall i, j :: 0 <= i < j < |m| ==> m[i].0 != m[j].0
  }

  /** The position of the first entry for `k`. */
  function Find<K(==), V>(m: Entries<K, V>, k: K): (r: Option<nat>)
    ensures r.Some? ==> r.value < |m| && m[r.value].0 == k
    ensures r.None? ==> forall i :: 0 <= i < |m| ==> m[i].0 != k
    decreases |m|
  {
    if m == [] then None
    else if m[0].0 == k then Some(0)
    else match Find(m[1..], k)
      case Some(i) => Some(i + 1)
      case None => None
  }

  /** `m.get(k)`, with `None` for `undefined`. */
  function Get<K(==), V>(m: Entries<K, V>, k: K): Option<V> {
    match Find(m, k)
    case Some(i) => Some(m[i].1)
    case None => None
  }

  /** `m.set(k, v)`. */
  function Set<K(==), V>(m: Entries<K, V>, k: K, v: V): Entries<K, V> {
    match Find(m, k)
    case Some(i) => m[i := (k, v)]
    case None => m + [(k, v)]
  }

  /** `get` finds the value stored under a key, and `undefined` exactly for a missing key. */
  lemma GetFinds<K, V>(m: Entries<K, V>, k: K)
    requires DistinctKeys(m)
    ensures Get(m, k).None? <==> !HasKey(m, k)
    ensures forall i :: 0 <= i < |m| && m[i].0 == k ==> Get(m, k) == Some(m[i].1)
  {
  }

  /**
   * `set` keeps the keys distinct, adds `k` and no other key, and either
   * overwrites the one entry for `k` in place or appends a new entry.
   */
  lemma SetUpdates<K, V>(m: Entries<K, V>, k: K, v: V)
    requires DistinctKeys(m)
    ensures DistinctKeys(Set(m, k, v))
    ensures forall k' :: HasKey(Set(m, k, v), k') <==> HasKey(m, k') || k' == k
    ensures HasKey(m, k) ==> (|Set(m, k, v)| == |m| &&
      forall i :: 0 <= i < |m| ==> Set(m, k, v)[i] == if m[i].0 == k then (k, v) else m[i])
    ensures !HasKey(m, k) ==> Set(m, k, v) == m + [(k, v)]
  {
    var r := Set(m, k, v);
    match Find(m, k)
    case Some(p) =>
      forall k' ensures HasKey(r, k') <==> HasKey(m, k') {
        if HasKey(m, k') {
          var i :| 0 <= i < |m| && m[i].0 == k';
          assert r[i].0 == k';
        }
      }
    case None =>
      assert r[|m|].0 == k;
      forall k' ensures HasKey(r, k') <==> HasKey(m, k') || k' == k {
        if HasKey(m, k') {
          var i :| 0 <= i < |m| && m[i].0 == k';
          assert r[i].0 == k';
        }
      }
  }
}

/**
 * A Python `dict` as the sequence of its items in insertion order: assigning
 * to an existing key replaces its value in place, assigning to a new key
 * appends an item at the end.
 */
module OrderedDict {
  import opened Wrappers
  import opened Sequences

  type Dict<K, V> = seq<(K, V)>

  /** The keys in iteration order. */
  function Keys<K, V>(d: Dict<K, V>): seq<K> {
    seq(|d|, i requires 0 <= i < |d| => d[i].0)
  }

  predicate UniqueKeys<K(==), V>(d: Dict<K, V>) {
    Distinct(Keys(d))
  }

  /** `d.get(k)` */
  function Get<K(==), V>(d: Dict<K, V>, k: K): Option<V> {
    if d == [] then None
    else if d[0].0 == k then Some(d[0].1)
    else Get(d[1..], k)
  }

  /** `d[k] = v` */
  function Put<K(==), V>(d: Dict<K, V>, k: K, v: V): Dict<K, V> {
    if d == [] then [(k, v)]
    else if d[0].0 == k then [(k, v)] + d[1..]
    else [d[0]] + Put(d[1..], k, v)
  }

  lemma KeysOfTail<K, V>(d: Dict<K, V>)
    requires d != []
    ensures Keys(d) == [d[0].0] + Keys(d[1..])
  {
    assert Keys(d) == [d[0].0] + Keys(d[1..]);
  }

  /** Assignment keeps the position of an existing key and appends a new one. */
  lemma {:induction false} PutKeys<K, V>(d: Dict<K, V>, k: K, v: V)
    ensures Keys(Put(d, k, v)) == if k in Keys(d) then Keys(d) else Keys(d) + [k]
  {
    if d != [] {
      KeysOfTail(d);
      KeysOfTail(Put(d, k, v));
      if d[0].0 != k {
        PutKeys(d[1..], k, v);
      }
    }
  }

  /** Assignment to a key that is already present leaves the size unchanged;
      to a new key it adds one. */
  lemma PutSize<K, V>(d: Dict<K, V>, k: K, v: V)
    ensures |Put(d, k, v)| == if k in Keys(d) then |d| else |d| + 1
  {
    PutKeys(d, k, v);
    assert |Keys(Put(d, k, v))| == |Put(d, k, v)|;
  }

  /** Reading after an assignment sees the new value under that key only. */
  lemma {:induction false} PutGet<K, V>(d: Dict<K, V>, k: K, v: V, x: K)
    ensures Get(Put(d, k, v), x) == if x == k then Some(v) else Get(d, x)
  {
    if d != [] && d[0].0 != k {
      PutGet(d[1..], k, v, x);
    }
  }

  /** Every item after an assignment is the new one or was there before. */
  lemma {:induction false} PutItems<K, V>(d: Dict<K, V>, k: K, v: V)
    ensures (k, v) in Put(d, k, v)
    ensures forall p :: p in Put(d, k, v) ==> p == (k, v) || p in d
  {
    if d != [] && d[0].0 != k {
      PutItems(d[1..], k, v);
    }
  }

  lemma PutUnique<K, V>(d: Dict<K, V>, k: K, v: V)
    requires UniqueKeys(d)
    ensures UniqueKeys(Put(d, k, v))
  {
    PutKeys(d, k, v);
  }

  /** With unique keys, looking up the key of an item gives that item's value. */
  lemma {:induction false} GetItem<K, V>(d: Dict<K, V>, i: nat)
    requires UniqueKeys(d) && i < |d|
    ensures Get(d, d[i].0) == Some(d[i].1)
  {
    KeysOfTail(d);
    if i > 0 {
      DistinctTail(Keys(d));
      assert Keys(d)[0] != Keys(d)[i];
      GetItem(d[1..], i - 1);
    }
  }
}

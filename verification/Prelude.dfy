/** Small shared vocabulary: optional values, results and the fixed-width
    unsigned integers of the source. */
module Prelude {

  datatype Option<+T> = None | Some(value: T)

  datatype Result<+T, +E> = Ok(value: T) | Err(error: E)

  const TWO_32: nat := 0x1_0000_0000
  const TWO_64: nat := 0x1_0000_0000_0000_0000
  const TWO_127: nat := 0x8000_0000_0000_0000_0000_0000_0000_0000
  const TWO_128: nat := 0x1_0000_0000_0000_0000_0000_0000_0000_0000

  type u32 = n: nat | n < TWO_32
  type u64 = n: nat | n < TWO_64
  type u128 = n: nat | n < TWO_128

  // Byte strings are modelled as strings; every payload of the source that is
  // inspected at all is decoded as UTF-8 text first.
  type Bytes = string

  /** The value stored under a key, if any. */
  function Get<V>(m: map<string, V>, key: string): Option<V> {
    if key in m then Some(m[key]) else None
  }

  /** The map with the entry of a key replaced, or removed for `None`. */
  function Set<V>(m: map<string, V>, key: string, v: Option<V>): map<string, V> {
    if v.Some? then m[key := v.value] else m - {key}
  }

  lemma GetAfterSet<V>(m: map<string, V>, key: string, v: Option<V>, other: string)
    ensures Get(Set(m, key, v), key) == v
    ensures other != key ==> Get(Set(m, key, v), other) == Get(m, other)
  {
  }

  lemma SetAfterSet<V>(m: map<string, V>, key: string, v: Option<V>, v': Option<V>)
    ensures Set(Set(m, key, v), key, v') == Set(m, key, v')
    ensures Set(m, key, Get(m, key)) == m
  {
  }

  /** Maps are equal when every lookup is. */
  lemma SameGets<V>(m: map<string, V>, m': map<string, V>)
    requires forall key :: Get(m, key) == Get(m', key)
    ensures m == m'
  {
    forall key
      ensures key in m <==> key in m'
      ensures key in m ==> m[key] == m'[key]
    {
      assert Get(m, key) == Get(m', key);
    }
  }

  lemma MergeUpdate<K, V>(m: map<K, V>, part: map<K, V>, key: K, v: V)
    requires key !in part
    ensures m[key := v] + part == m + part[key := v]
  {
  }
}

/** Optional values: the model's stand-in for JavaScript's null / undefined. */
module Wrappers {

  datatype Option<+T> = None | Some(value: T)

  /** The value stored under `k`, or None when `m` has no such key. */
  function Lookup<K, V>(m: map<K, V>, k: K): (r: Option<V>)
    ensures r.Some? <==> k in m
    ensures r.Some? ==> r.value == m[k]
  {
    if k in m then Some(m[k]) else None
  }
}

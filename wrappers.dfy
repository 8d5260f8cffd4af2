/** The Option datatype used for Python's "value or None" results. */
module Wrappers {

  datatype Option<+T> = None | Some(value: T)

  /** Python's `d.get(k)`: the value bound to `k`, or None when `k` is not a key. */
  function Get<K, V>(m: map<K, V>, k: K): (r: Option<V>)
    ensures r.Some? <==> k in m
    ensures r.Some? ==> r.value == m[k]
  {
    if k in m then Some(m[k]) else None
  }
}

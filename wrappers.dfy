/** The absent/undefined value of the mapper's observables. */
module Wrappers {

  datatype Option<+T> = None | Some(value: T)

  /** The value stored under `k`, or None when `m` has no such key. */
  function Lookup<K, T>(m: map<K, T>, k: K): (r: Option<T>)
    ensures r.Some? <==> k in m
    ensures r.Some? ==> r.value == m[k]
  {
    if k in m then Some(m[k]) else None
  }
}

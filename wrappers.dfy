/** Optional values, standing in for JavaScript's `null`. */
module Wrappers {

  /** `None` plays the part of `null`; `Some(v)` holds a present value. */
  datatype Option<+T> = None | Some(value: T)

  /** A key/value store lookup that, like `sessionStorage.getItem`, yields `None`
      for a missing key. */
  function Get<K, V>(m: map<K, V>, k: K): Option<V>
  {
    if k in m then Some(m[k]) else None
  }
}

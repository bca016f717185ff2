/** Optional values, results that carry an error, and map lookup. */
module Wrappers {

  datatype Option<+T> = None | Some(value: T)

  /** The outcome of an operation that may throw: a value or the error thrown. */
  datatype Result<+T, +E> = Ok(value: T) | Err(error: E)

  /** A dictionary subscript: the value stored under `key`, or None when there is none. */
  function Lookup<K, V>(m: map<K, V>, key: K): Option<V>
  {
    if key in m then Some(m[key]) else None
  }
}

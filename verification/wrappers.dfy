/** Optional values and success/failure results shared by the two models. */
module Wrappers {

  /** A value that may be missing: JavaScript's `undefined` / C#'s `null`. */
  datatype Option<+T> = None | Some(value: T)

  /** The outcome of an operation that may fail with an error of type `E`. */
  datatype Result<+R, +E> = Success(value: R) | Failure(error: E)

  /** Looks `key` up in `m`, yielding `None` when it is not a key. */
  function Get<K, V>(m: map<K, V>, key: K): (r: Option<V>)
    ensures r.Some? <==> key in m
    ensures r.Some? ==> r.value == m[key]
  {
    if key in m then Some(m[key]) else None
  }
}

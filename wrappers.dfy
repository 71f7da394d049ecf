/** Option and Result values, used where the Ruby code sees `nil` or raises. */
module Wrappers {

  /** `None` stands for Ruby's `nil` (a missing hash key, an unset instance variable). */
  datatype Option<+T> = None | Some(value: T)

  /** The outcome of an action that may raise before it completes. */
  datatype Result<+T, +E> = Success(value: T) | Failure(error: E)

  /** Hash lookup that gives `nil` for a missing key, as Ruby's `Hash#[]` does. */
  function Lookup<K, V>(m: map<K, V>, k: K): (r: Option<V>)
    ensures r.Some? <==> k in m
    ensures r.Some? ==> r.value == m[k]
  {
    if k in m then Some(m[k]) else None
  }
}

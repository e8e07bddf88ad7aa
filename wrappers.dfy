/** Failure-carrying datatypes shared by the model. */
module Wrappers {

  datatype Option<+T> = None | Some(value: T)

  /** A value or the error that replaced it (a PHP exception, in the source). */
  datatype Result<+R, +E> = Ok(value: R) | Err(error: E)

  /** Success of a step that returns nothing, or the error that aborted it. */
  datatype Outcome<+E> = Pass | Fail(error: E)

  function Lookup<K, V>(m: map<K, V>, k: K): (r: Option<V>)
    ensures r.Some? <==> k in m
    ensures r.Some? ==> r.value == m[k]
  {
    if k in m then Some(m[k]) else None
  }
}

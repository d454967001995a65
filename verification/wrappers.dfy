/** Plain optional and result datatypes shared by the configuration model. */
module Wrappers {

  /** A value that may be absent. */
  datatype Option<+T> = None | Some(value: T)

  /** Either a value or the error that was raised instead of producing it. */
  datatype Result<+R, +E> = Success(value: R) | Failure(error: E)

  /** Looks `k` up in `m`, turning a missing key into `None`. */
  function Get<K, V>(m: map<K, V>, k: K): Option<V>
  {
    if k in m then Some(m[k]) else None
  }

  /** The value of a success, or `fallback` when the computation failed. */
  function ValueOr<R, E>(r: Result<R, E>, fallback: R): R
  {
    match r
    case Success(v) => v
    case Failure(_) => fallback
  }
}

/**
  Option and Result values used for the source's `None` and its raised
  exceptions, and Python's built-in `min` of two integers.
*/
module Wrappers {

  datatype Option<+T> = None | Some(value: T) {
    /** The value, or `default` when absent (Python's `dict.get(key, default)`). */
    function GetOr(default: T): T {
      match this
      case Some(v) => v
      case None => default
    }
  }

  /** `Err` carries the exception the source raises; `Ok` the value it returns. */
  datatype Result<+T, +E> = Ok(value: T) | Err(error: E)

  /** `min(a, b)`: the smaller argument. */
  function Min(a: int, b: int): (m: int)
    ensures m <= a && m <= b && (m == a || m == b)
  {
    if a <= b then a else b
  }
}

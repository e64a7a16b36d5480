/** Option and Result, the shapes the strategy SDK uses for "maybe absent"
    values (Python's `None`) and for calls that may raise. */
module Base {

  datatype Option<+T> = None | Some(value: T) {

    /** The held value, or `default` when absent (Python's `d.get(k, default)`). */
    function GetOr(default: T): T {
      match this
      case Some(v) => v
      case None => default
    }
  }

  datatype Result<+T, +E> = Ok(value: T) | Err(error: E)

  /** The smaller of two reals, as Python's `min` on two numbers. */
  function Min(a: real, b: real): (m: real)
    ensures m <= a && m <= b
    ensures m == a || m == b
  {
    if b < a then b else a
  }
}

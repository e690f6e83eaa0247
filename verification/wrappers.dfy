/** Option and Result, the two failure-carrying shapes the Rust code uses
    (`Option<T>` and `anyhow::Result<T>`, whose error is reduced to its message). */
module Wrappers {

  datatype Option<T> = None | Some(value: T) {

    /** Returns the value in Some or the given default. */
    function GetOr(default: T): T
    {
      match this
      case Some(v) => v
      case None => default
    }
  }

  datatype Result<T> = Ok(value: T) | Err(error: string)

  /** The minimum of two naturals (Rust's `usize::min`). */
  function Min(a: nat, b: nat): (m: nat)
    ensures m <= a && m <= b && (m == a || m == b)
  {
    if a <= b then a else b
  }
}

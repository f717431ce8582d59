/** Option and Result, the shapes used for optional values and for the
    exceptions the harness throws. */
module Wrappers {

  datatype Option<+T> = None | Some(value: T)

  datatype Result<+T, +E> = Ok(value: T) | Err(error: E)

  function Min(a: nat, b: nat): nat
  {
    if a <= b then a else b
  }
}

/** The two container datatypes the driver model uses for Rust's `Option` and `Result`, and sizes that are
    not zero. */
module Wrappers {

  datatype Option<+T> = None | Some(value: T) {
    function UnwrapOr(default: T): T { if None? then default else value }
  }

  type Positive = n: nat | n > 0 witness 1

  datatype Result<+T, +E> = Ok(value: T) | Err(error: E)
}

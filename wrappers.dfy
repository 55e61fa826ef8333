/** Option and Result, the two sum types the Rust code returns. */
module Wrappers {

  /** Rust's `Option<T>`. */
  datatype Option<+T> = None | Some(value: T)

  /** Rust's `Result<T, E>`; `anyhow::Result<T>` fixes `E` to `anyhow::Error`. */
  datatype Result<+T, +E> = Ok(value: T) | Err(error: E)
}

/** Rust's `Option`, `Result` and `usize`, shared by every module of the model. */
module Wrappers {
  datatype Option<+T> = None | Some(value: T)

  datatype Result<+T, +E> = Ok(value: T) | Err(error: E)

  const USIZE_MAX: nat := 0xffff_ffff_ffff_ffff
}

/** Rust's `Option` and `Result`, as the identifier and its generator use them. */
module Wrappers {

  /** `Option<T>`: `None` is an absent result, not an error. */
  datatype Option<+T> = None | Some(value: T)

  /** `Result<T, E>`. */
  datatype Result<+T, +E> = Ok(value: T) | Err(error: E)
}

/** Failure-compatible wrappers shared by the model: Rust's `Option` and `Result`. */
module Wrappers {

  /** Rust's `Option<T>`. `Colors.Color` also has a `None` constructor, so
      modules that open both write `Option.None` and `Color.None`. */
  datatype Option<+T> = None | Some(value: T)

  /** Rust's `Result<T, E>`. */
  datatype Result<+T, +E> = Ok(value: T) | Err(error: E)
}

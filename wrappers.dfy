/** Optional values and error returns, shared by every module of the model.
    `None` stands for JavaScript's `null`/`undefined` and for Rust's `None`;
    `Err` for a thrown error or a Rust `Err`. */
module Wrappers {
  datatype Option<T> = None | Some(value: T)

  datatype Result<T, E> = Ok(value: T) | Err(error: E)
}

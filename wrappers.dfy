/** Option and Result, the two shapes the model uses for values that may be
    absent (Rust's `Option`) and operations that may fail (`anyhow::Result`). */
module Wrappers {

  datatype Option<+T> = None | Some(value: T)

  datatype Result<+T, +E> = Ok(value: T) | Err(error: E)
}

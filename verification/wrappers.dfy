/** Option and Result, used for the places where the game either yields
    nothing or aborts (a Rust panic or an unwrap on None). */
module Wrappers {

  datatype Option<+T> = None | Some(value: T)

  datatype Result<+T, +E> = Ok(value: T) | Err(error: E)
}

/** Option and Result, the shapes the bindings use for nullable values and fallible calls. */
module Wrappers {
  datatype Option<+T> = None | Some(value: T)

  datatype Result<+T, +E> = Ok(value: T) | Err(error: E)

  /** A Rust panic: the message it carries (`panic!`, `unimplemented!`, a failed `assert_eq!`). */
  datatype Panic = Panic(message: string)
}

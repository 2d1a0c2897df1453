/** Option and the three-way outcome of a fallible operation. */
module Wrappers {

  datatype Option<+T> = None | Some(value: T)

  /** The result of an operation of the engine or the store.
      `Ok` and `Err` are Rust's `Result`; `Abort` stands for a panic
      (`unwrap`, `expect` or `panic!`), after which nothing else runs. */
  datatype Outcome<+T> = Ok(value: T) | Err(msg: string) | Abort(msg: string)
}

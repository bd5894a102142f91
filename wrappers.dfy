/** The Option and Result shapes that the Rust code uses for absent values and errors. */
module Wrappers {

  datatype Option<+T> = None | Some(value: T)

  /** A Rust `Result`; usable with `:-`, which plays the part of Rust's `?`. */
  datatype Result<+T, +E> = Ok(value: T) | Err(error: E) {

    predicate IsFailure() {
      Err?
    }

    function PropagateFailure<U>(): Result<U, E>
      requires Err?
    {
      Err(error)
    }

    function Extract(): T
      requires Ok?
    {
      value
    }
  }
}

/** Small wrapper types shared by the other modules. */
module Common {

  /** Rust's `Option`: used for "the index of the object stood on, if any". */
  datatype Option<+T> = None | Some(value: T)

  /** The result of an operation that either finishes or aborts the program with `panic!`.
      A panic is unrecoverable in the source; the model reports it instead of continuing. */
  datatype Outcome<+T> = Pass(value: T) | Panic
}

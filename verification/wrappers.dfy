/** The carriers used throughout the model: an optional value
    (Go's nil / comma-ok results) and a value-or-error result (Go's `(T, error)`). */
module Wrappers {

  datatype Option<+T> = None | Some(value: T)

  datatype Result<+T, +E> = Ok(value: T) | Err(error: E)
}

/** Success/failure wrappers standing in for the source's `Option` and for the
    panics (`unwrap()`) that the model turns into explicit failures. */
module Wrappers {

  datatype Option<+T> = None | Some(value: T)

  datatype Result<+T, +E> = Ok(value: T) | Err(error: E)

}

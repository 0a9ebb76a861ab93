/** Option and Result, the two shapes used for "maybe absent" values
    (JavaScript's `undefined`, Go's nil pointers) and for operations that
    throw or return an error. */
module Wrappers {

  datatype Option<+T> = None | Some(value: T)

  datatype Result<+R, +E> = Ok(value: R) | Err(error: E)
}

/** The optional and fallible values that the client's JavaScript expresses with
    `null`/`undefined` and with thrown exceptions. */
module Wrappers {

  datatype Option<+T> = None | Some(value: T)

  datatype Result<+R, +E> = Ok(value: R) | Err(error: E)
}

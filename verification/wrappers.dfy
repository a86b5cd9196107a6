/** Option and Result values: a missing environment entry, a NaN from
    `parseInt`, and a configuration that cannot be resolved. */
module Wrappers {

  datatype Option<+T> = None | Some(value: T)

  datatype Result<+R, +E> = Ok(value: R) | Err(error: E)
}

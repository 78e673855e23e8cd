/** Optional values and error results, the shapes JavaScript expresses with
    `undefined` and with a thrown exception. */
module Wrappers {

  datatype Option<+T> = None | Some(value: T)

  datatype Result<+T, +E> = Ok(value: T) | Err(error: E)
}

/** Optional values and results, the model's stand-ins for Go's nil and for
    the `(value, error)` pairs the library returns. */
module Wrappers {

  /** `None` models a nil pointer, an absent map entry or a `false` "ok" flag. */
  datatype Option<+T> = None | Some(value: T)

  /** `Ok` models a call that returned a nil error; `Fail` one that did not. */
  datatype Result<+T, +E> = Ok(value: T) | Fail(error: E)
}

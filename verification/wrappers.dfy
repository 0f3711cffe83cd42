/** The two sum types the stores share: `Option` for a value that may be
    `undefined` (with `GetOr` for `??`), and `Result` for an action that either
    succeeds with a new value or rejects with an error. */
module Wrappers {

  /** A value that may be absent (TypeScript's `T | undefined`). */
  datatype Option<+T> = None | Some(value: T) {

    /** The wrapped value, or `default` when absent (`x ?? default`). */
    function GetOr(default: T): (r: T)
      ensures Some? ==> r == value
      ensures None? ==> r == default
    {
      match this
      case Some(v) => v
      case None => default
    }
  }

  /** The outcome of an action that either succeeds with a value or rejects. */
  datatype Result<+T, +E> = Ok(value: T) | Err(error: E)
}

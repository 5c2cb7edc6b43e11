/** Optional values and fallible results, used wherever the source has
    `undefined`, `null`, or a thrown `Error`. */
module Wrappers {

  datatype Option<+T> = None | Some(value: T) {
    function GetOr(default: T): T {
      match this
      case Some(v) => v
      case None => default
    }
  }

  /** The outcome of an operation that can fail with a message, like the
      mock API's `throw new Error('Subscription not found')`. */
  datatype Result<+T> = Ok(value: T) | Err(message: string)
}

/** Optional values and results, used wherever the source has null, undefined or an error return. */
module Wrappers {

  datatype Option<+T> = None | Some(value: T) {
    function GetOr(default: T): T {
      match this
      case Some(v) => v
      case None => default
    }
  }

  datatype Result<+R, +E> = Success(value: R) | Failure(error: E)

  /** An error reply of the HTTP API: the status code and the `error` text of the JSON body. */
  datatype HttpError = HttpError(code: nat, message: string)

  /** Truthiness of a nullable number, in JavaScript and in Python alike: null and 0 are falsy. */
  predicate Truthy(n: Option<int>)
  {
    n.Some? && n.value != 0
  }
}

/** Option and Result: the model's stand-ins for JavaScript's null/undefined and for
    raised exceptions or HTTP error replies. */
module Wrappers {

  datatype Option<+T> = None | Some(value: T) {
    function GetOr(default: T): T {
      match this
      case Some(v) => v
      case None => default
    }
  }

  datatype Result<+R, +E> = Success(value: R) | Failure(error: E)

  /** An HTTP error reply: status code and detail text. */
  datatype HttpError = HttpError(status: int, detail: string)
}

/** Option and Result values shared by the rest of the model. A Python
    exception, or a JavaScript `undefined` field, becomes one of these. */
module Wrappers {

  datatype Option<+T> = None | Some(value: T) {
    function GetOr(default: T): T {
      match this
      case Some(v) => v
      case None => default
    }
  }

  /** The outcome of a call that may raise: `Failure` carries `str(e)`. */
  datatype Result<+T> = Success(value: T) | Failure(error: string)
}

/** Option and Result values standing in for Python's `None` and for raised exceptions. */
module Wrappers {

  datatype Option<+T> = None | Some(value: T) {
    function GetOr(default: T): T {
      match this
      case Some(v) => v
      case None => default
    }
  }

  /** The outcome of a Python call: either it returned `value` or it raised `error`. */
  datatype Result<+R, +E> = Success(value: R) | Failure(error: E)
}

/** A raised Python exception, reduced to its class name and its message. */
module Exceptions {

  datatype Exception = Exception(kind: string, message: string)

  function ValueError(message: string): Exception {
    Exception("ValueError", message)
  }
}

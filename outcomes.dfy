/** Option and the exceptions the client can raise or reject with. */
module Outcomes {

  datatype Option<+T> = None | Some(value: T) {
    function GetOr(default: T): T {
      match this
      case Some(v) => v
      case None => default
    }
  }

  /** The JavaScript errors that end a call. */
  datatype Failure =
    | PlainError(message: string)     // `new Error(message)`
    | PaynlError(message: string)     // `new PaynlError(message)`, the client's own error class
    | TypeError                       // an engine or library TypeError (a property read or written on null/undefined, a write on a primitive, Buffer.concat's argument check)
    | SyntaxError(detail: string)     // raised by `JSON.parse` on a body that is not JSON
    | TransportError(detail: string)  // emitted by the HTTPS request (connection failure, abort on timeout)

  /** A computation that either returns a value or throws. */
  datatype Result<+T> = Ok(value: T) | Err(error: Failure)
}

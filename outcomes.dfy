/** Values shared by every module: optional values, thrown errors and results. */
module Outcomes {

  /** An optional value: `None` stands for JavaScript's `undefined` or `null`. */
  datatype Option<+T> = None | Some(value: T) {
    /** The value, or `default` when there is none (the `x || default` idiom on a truthy field). */
    function GetOr(default: T): T {
      match this
      case Some(v) => v
      case None => default
    }
  }

  /** A thrown JavaScript `Error`: its `message` and, for errors raised by the document store, its status `code`. */
  datatype Error = Error(message: string, code: Option<int>)

  /** `new Error(message)`: an error that carries no status code. */
  function Raise(message: string): Error {
    Error(message, None)
  }

  /** The outcome of a call that either returns a value or throws. */
  datatype Result<+T, +E> = Ok(value: T) | Err(error: E)
}

/** Failure-carrying wrappers shared by every module of the model. */
module Wrappers {

  /** An optional value; `None` stands for JavaScript's null/undefined or Python's None. */
  datatype Option<+T> = None | Some(value: T) {
    function GetOr(default: T): T {
      match this
      case Some(v) => v
      case None => default
    }
  }

  /** The outcome of a call into a remote service: the data it returned, or an error message. */
  datatype Result<+R> = Ok(value: R) | Err(message: string)
}

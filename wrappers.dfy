/** Option and Result values shared by every module of the model. */
module Wrappers {

  datatype Option<+T> = None | Some(value: T) {
    function GetOr(default: T): T {
      match this
      case Some(v) => v
      case None => default
    }
  }

  /** The exceptions the modelled code raises or lets escape. */
  datatype Error =
    | ValueError            // ValueError raised by the code itself
    | FileNotFound          // FileNotFoundError
    | ValidationError       // a pydantic model rejected its input
    | IndexError            // an index past the end of a list
    | AttributeError        // a method called on a value that lacks it
    | DatabaseError         // sqlite3 reports a missing table
    | HttpError(status: int) // FastAPI HTTPException with this status code
    | ExternalError         // an exception raised by an external service

  datatype Result<+T> = Ok(value: T) | Err(error: Error)
}

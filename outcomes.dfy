/** Option, Result and the error kinds the connector and its API client report. */
module Outcomes {

  datatype Option<+T> = None | Some(value: T) {
    function GetOr(default: T): T {
      match this
      case Some(v) => v
      case None => default
    }
  }

  /** Why an operation failed. The connector wraps these in formatted messages; only the
      kind (and the data that decides it) is kept here. */
  datatype Error =
    | TransportError                    // the HTTP client could not complete the exchange
    | StatusError(code: int)            // the backend answered with a status of 300 or more
    | DecodeError                       // the response body did not decode into the expected shape
    | NoActivePageState                 // the page bag was advanced while empty
    | UnknownResourceType(tag: string)  // a page frame names no known phase
    | GrantToNonUser(principalType: string)
    | RevokeFromNonUser(principalType: string)
    | InvalidConfig

  datatype Result<+T> = Success(value: T) | Failure(error: Error) {
    predicate IsFailure() {
      Failure?
    }

    function PropagateFailure<U>(): Result<U>
      requires Failure?
    {
      Failure(error)
    }

    function Extract(): T
      requires Success?
    {
      value
    }
  }
}

/** The optional value. */
module Wrappers {
  datatype Option<+T> = None | Some(value: T)
}

/** The exceptions the core raises or lets through, as values. */
module Errors {
  /** Why a request counts as a client error. */
  datatype ClientReason =
    | BadStatus(status: int)    // HTTP status other than 200
    | InvalidJson               // the body did not parse as JSON
    | ErrorCode(code: string)   // an `error` key with a code that is not an auth code

  datatype Error =
    | ClientError(reason: ClientReason)
    | AuthError(code: string)
    | KeyError(key: string)     // a missing dict key or an unmatched branch
    | ZeroDivisionError

  datatype Result<+T> = Ok(value: T) | Err(error: Error)

  datatype Outcome = Pass | Fail(error: Error)
}

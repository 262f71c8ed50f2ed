/** Outcomes shared by the route handlers. */
module Results {

  datatype Option<+T> = None | Some(value: T)

  /**
   * How a handler refuses a request. The message is the `error` text the
   * handler answers with.
   */
  datatype Failure =
    | NotFound(message: string)        // answered with 404
    | Rejected(message: string)        // answered with 400
    | Unauthorized(message: string)    // answered with 401 or 403
    | ConstraintViolation              // a unique constraint of the store refused the write (500)

  datatype Result<+T> = Ok(value: T) | Err(failure: Failure)
}

/** Result types shared by every module. */
module Wrappers {
  datatype Option<+T> = None | Some(value: T)

  /** The exceptions the services throw, by kind. */
  datatype Error =
    | NotFound
    | Forbidden
    | BadRequest
    | Conflict
    | Unauthorized
    | AmountNotPositive
    | InsufficientBalance

  datatype Result<+T> = Ok(value: T) | Err(error: Error)
}

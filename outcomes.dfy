/** Failure-carrying values shared by the whole model. The source signals every
    failure with an exception; here each failure is an `Error` value. */
module Outcomes {

  datatype Option<+T> = None | Some(value: T)

  /** The four recoverable error kinds of the game. Exception messages are not
      modelled, only which exception is thrown. */
  datatype Error =
    | InvalidPosition   // InvalidPositionException
    | EmptyBox          // EmptyBoxException
    | UnmovableFixed    // UnmovableFixedBoxException
    | BoxAlreadyFixed   // BoxAlreadyFixedException

  datatype Result<+T> = Ok(value: T) | Err(error: Error)

  /** The outcome of an operation that returns nothing but may throw. */
  datatype Outcome = Pass | Fail(error: Error)
}

/** Outcomes of the contract's entry points: an optional value, a result that is either a
    value or a contract error, and the error taxonomy itself. */
module Errors {

  datatype Option<+T> = None | Some(value: T)

  datatype Result<+R, +E> = Ok(value: R) | Err(error: E)

  /** The contract's error variants. `InvalidAddress` and `NotFound` stand for the host's
      standard errors (an address the host refuses to validate, a storage key that is absent).
      `Arithmetic` stands for a panic: an `unwrap` of a failed checked operation or an integer
      overflow. Like an error, a panic ends the request and the host discards its writes. */
  datatype ContractError =
    | InvalidOwner
    | InvalidRecipient
    | InvalidStartTime
    | InvalidDuration
    | Unauthorized
    | NotStreamRecipient
    | StreamFullyClaimed
    | StreamNotStarted
    | NotFound
    | InvalidAddress
    | Arithmetic
}

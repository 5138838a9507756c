/** Error codes and results shared by every package. */
module Errors {

  datatype ErrorCode =
    | InvalidMoney
    | InvalidIban
    | InsufficientFunds
    | NotFound
    | Conflict
    | RequestInProgress
    | Forbidden
    | Validation
    | UnbalancedTransaction
    | InvalidLedgerEntry
    | InvalidAccount

  /** A business-rule violation with its code, or any plain infrastructure error. */
  datatype Error = Domain(code: ErrorCode) | Infrastructure

  datatype Result<+T> = Ok(value: T) | Err(error: Error)

  datatype Option<+T> = None | Some(value: T)

  datatype Unit = Unit
}

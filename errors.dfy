/** The error values of the calculator and the orchestrator, and the
    failure-compatible wrappers the rest of the model returns. */
module Errors {

  /** The sentinel errors of pkg/errors, plus two outcomes that are not
      sentinels there: the "Expression not found" reply of the result
      handler, and a Go runtime panic (slice index out of range). */
  datatype Error =
    | DivisionByZero
    | InvalidExpression
    | OperatorNotSupported
    | UnacceptableSymbol
    | ExtraOperator
    | ExtraOpenBracket
    | ExtraCloseBracket
    | NoTasksAvailable
    | ExpressionNotFound
    | IndexOutOfRange

  /** A Go `(value, error)` pair: exactly one of the two is meaningful. */
  datatype Result<+T> = Ok(value: T) | Err(error: Error) {
    predicate IsFailure() { Err? }
    function PropagateFailure<U>(): Result<U> requires Err? { Err(error) }
    function Extract(): T requires Ok? { value }
  }

  datatype Option<+T> = None | Some(value: T)
}

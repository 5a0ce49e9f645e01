/**
 * Shared vocabulary: optional values, results, and the C++ standard exception
 * kinds the labs throw. A thrown exception is modelled as an `Err` result that
 * carries the exception's kind and message.
 */
module Outcomes {

  datatype Option<+T> = None | Some(value: T)

  /** The exception classes of <stdexcept> and <system_error> that the labs throw. */
  datatype Error =
    | InvalidArgument(message: string)
    | RuntimeError(message: string)
    | LogicError(message: string)
    | OutOfRange(message: string)
    | SystemError(code: int)

  datatype Result<+T> = Ok(value: T) | Err(error: Error)

  /** A result that carries no value: an operation that returns void or throws. */
  datatype Status = Done | Failed(error: Error)
}

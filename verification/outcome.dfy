/**
 * Outcome types shared by the repositories and the view models: Kotlin's
 * nullable values, its `Result`, and the remote-call failures that the
 * repositories turn into `Result.failure`.
 */
module Outcome {

  /** A Kotlin nullable value: `None` is `null`. */
  datatype Option<T> = None | Some(value: T) {
    /** Kotlin's `x ?: default`. */
    function OrElse(default: T): T
    {
      if Some? then value else default
    }
  }

  /**
   * Kotlin's `Result`: a value, or a failure carrying the exception's
   * message, which Kotlin types as nullable.
   */
  datatype Result<T> = Success(value: T) | Failure(message: Option<string>)

  /**
   * Which remote call of one repository operation throws, if any. Calls are
   * numbered from 0 in the order the operation issues them; the first call
   * that throws ends the operation's `try` block.
   */
  datatype Fault = NoFault | FailAt(call: nat, message: Option<string>)

  predicate Fails(f: Fault, call: nat)
  {
    f.FailAt? && f.call == call
  }
}

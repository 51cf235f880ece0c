/** Failure-carrying wrappers shared by every module, and the failures the
    library raises (each constructor names one `throw` of the Kotlin code). */
module Wrappers {

  datatype Option<+T> = None | Some(value: T)

  /** Why an operation threw. */
  datatype Failure =
    | IllegalArgument(reason: string)       // IllegalArgumentException raised by a check
    | ParameterError(index: nat, reason: string) // LemonUtils.parameterError(index, method, msg)
    | ConcurrentModification                 // java.util.ConcurrentModificationException
    | IndexOutOfBounds                       // an index or offset outside its array or list
    | NoSuchElement                          // List.first() on an empty list
    | ClassCast                              // a value of the wrong class reached a converter
    | Io(reason: string)                     // an IOException from a collaborator

  datatype Result<+T> = Ok(value: T) | Err(failure: Failure) {
    predicate IsFailure() { Err? }

    function PropagateFailure<U>(): Result<U>
      requires Err?
    {
      Err(failure)
    }

    function Extract(): T
      requires Ok?
    {
      value
    }
  }

  /** A result without a value: the operation either completed or threw. */
  datatype Outcome = Done | Fail(failure: Failure) {
    predicate IsFailure() { Fail? }

    function PropagateFailure(): Outcome
      requires Fail?
    {
      this
    }
  }
}

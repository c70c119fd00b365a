/** Failure-compatible wrappers and the exceptions the converter's core can raise. */
module Outcomes {

  /** The exceptions thrown by the modelled Java code. */
  datatype Error =
    | MissingAttribute(name: string)        // a null attribute value is dereferenced
    | NumberFormat(text: string)            // Double.parseDouble / Integer.parseInt reject the text
    | IllegalArgument(message: string)       // IllegalArgumentException from the transform parser
    | IndexOutOfBounds                      // StringBuilder.append(char[], int, int) with a bad range

  datatype Option<+T> = None | Some(value: T) {
    predicate IsFailure() { None? }

    function PropagateFailure<U>(): Option<U>
      requires None?
    {
      None
    }

    function Extract(): T
      requires Some?
    {
      value
    }
  }

  datatype Result<+T> = Success(value: T) | Failure(error: Error) {
    predicate IsFailure() { Failure? }

    function PropagateFailure<U>(): Result<U>
      requires Failure?
    {
      Failure(error)
    }

    function Extract(): T
      requires Success?
    {
      value
    }
  }

  /** How a handler call ends: normally, by an exception, or by never returning. */
  datatype Status = Done | Failed(error: Error) | LoopsForever
}

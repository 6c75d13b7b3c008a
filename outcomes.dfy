/** Optional values and the failures the object generator can raise. */
module Outcomes {

  /** An attribute that may be unset (Python's None). */
  datatype Option<+T> = None | Some(value: T)

  /** The exceptions the generator raises, named by what went wrong. */
  datatype Error =
    | UnknownForm(form: string)                         // KeyError: no particle bucket for this Pform
    | MissingAttribute(owner: string, attribute: string) // AttributeError: the attribute was never set
    | MissingValue(owner: string, attribute: string)     // TypeError: arithmetic on an attribute that is None
    | MissingFraction(key: string)                      // KeyError: no volume fraction for this compartment
    | ZeroDivision(owner: string)                       // ZeroDivisionError
    | MathDomain(owner: string)                         // ValueError: square root of a negative number

  /** The outcome of a step that either yields a value or raises. */
  datatype Result<+T> = Success(value: T) | Failure(error: Error) {
    predicate IsFailure() { Failure? }

    function PropagateFailure<U>(): Result<U>
      requires Failure?
    {
      Failure(error)
    }

    function Extract(): T
      requires Success?
    {
      value
    }
  }
}

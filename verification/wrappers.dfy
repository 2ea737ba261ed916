/** Optional values and failure-carrying results for the extractor model.

    Every exception the extractor lets propagate out of a document becomes a
    `Failure` carrying an `Error`; the caller's `:-` propagates it exactly as the
    exception would unwind the call stack.
 */
module Wrappers {

  /** Python's `None` versus a present value. */
  datatype Option<+T> = None | Some(value: T)

  /** The exceptions that abort the processing of one document. */
  datatype Error =
    | Missing(tag: string)              // a required unique child is absent (assertion error)
    | Duplicate(tag: string)            // more than one child carries the tag (assertion error)
    | NoText(tag: string)               // the child exists but has no first child node (attribute error)
    | BadDate                           // the tax-period-begin text is not a YYYY-MM-DD date
    | NotText                           // a missing (None) text value concatenated to a string (type error)
    | NoRecord                          // a field assigned into an absent (None) record (type error)
    | UnknownType(code: Option<string>) // a return type the batch driver does not know

  datatype Result<+T> = Success(value: T) | Failure(error: Error) {

    predicate IsFailure() {
      Failure?
    }

    function PropagateFailure<U>(): Result<U>
      requires Failure?
    {
      Failure(error)
    }

    function Extract(): T
      requires Success?
    {
      value
    }
  }
}

/** Failure-carrying values shared by the two cache backends and the façade.

    Every operation of the model is a pure transition: it returns what the
    source would return (or the error it would throw or reject with) together
    with the state of the store afterwards. */
module Outcomes {

  /** A value that may be missing: `undefined` in the source. */
  datatype Option<+T> = None | Some(value: T) {

    /** The value, or `default` when it is missing (the source's `x || default`
        and destructuring defaults). */
    function GetOr(default: T): T {
      match this
      case Some(v) => v
      case None => default
    }
  }

  /** The errors the caches throw or reject with. Each carries the message
      text the source builds, so that two paths throwing different texts stay
      distinguishable. */
  datatype CacheError =
    | ConfigError(message: string)      // the façade was built without a namespace
    | CapabilityError(message: string)  // the storage engine lacks the method a write needs
    | ReadError(message: string)        // the stored blob is not valid JSON
    | WriteError(message: string)       // a blob write failed after the capability check
    | InvalidArgument(message: string)  // a record-table call was rejected by its argument guard
    | StructuralFailure                 // an insert into the record table failed

  /** What a call produces: a value, or the error it throws or rejects with. */
  datatype Result<+T> = Ok(value: T) | Err(error: CacheError)

  /** One atomic transition: the call's result and the state it leaves. */
  datatype Step<+T, +S> = Step(result: Result<T>, state: S)
}

/** Optional values and results, shared by the modules of this model. */
module Wrappers {

  /** A value that may be absent: JavaScript's `null`/`undefined` versus a present value. */
  datatype Option<+T> = None | Some(value: T) {

    /** The `??` operator: this value unless it is absent, otherwise `other`. */
    function Or(other: T): (r: T)
      ensures Some? ==> r == value
      ensures None? ==> r == other
    {
      match this
      case Some(v) => v
      case None => other
    }
  }

  /** The outcome of an operation that either returns a value or throws an error. */
  datatype Result<+T, +E> = Ok(value: T) | Err(error: E)
}

/** Optional values and failure results, standing in for JavaScript's
    `undefined` and for the TypeErrors the modelled code can throw. */
module Wrappers {

  /** A property that may be absent (`undefined`). */
  datatype Option<+T> = None | Some(value: T) {

    /** `this ?? other`: the value if present, else `other`. */
    function Or(other: Option<T>): (r: Option<T>) {
      if Some? then this else other
    }
  }

  /** A computation that either returns a value or throws. */
  datatype Result<+T, +E> = Success(value: T) | Failure(error: E)
}

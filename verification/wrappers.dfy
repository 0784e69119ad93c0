/** Failure-compatible result types used across the model. */
module Wrappers {

  /** A value that may be missing: the `null` a builder returns when it has nothing to say. */
  datatype Option<+T> = None | Some(value: T)

  /** A computation that either completes or throws. */
  datatype Result<+T, +E> = Success(value: T) | Failure(error: E)

  /** The present value as a zero- or one-element sequence, for "append only if present". */
  function Present<T>(o: Option<T>): (s: seq<T>)
    ensures |s| <= 1
    ensures o.Some? ==> s == [o.value]
    ensures o.None? <==> s == []
  {
    if o.Some? then [o.value] else []
  }
}

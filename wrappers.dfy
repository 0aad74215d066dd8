/** Option and Result, usable with `:-`, as the loader's error path. */
module Wrappers {

  datatype Option<+T> = None | Some(value: T)

  /** The value of an optional attribute after a write of `written` when present:
      an absent write leaves `current` as it was. */
  function Assign<T>(current: Option<T>, written: Option<T>): (r: Option<T>)
    ensures written.Some? ==> r == written
    ensures written.None? ==> r == current
  {
    if written.Some? then written else current
  }

  datatype Result<+T, +E> = Success(value: T) | Failure(error: E) {

    predicate IsFailure() {
      Failure?
    }

    function PropagateFailure<U>(): Result<U, E>
      requires Failure?
    {
      Failure(error)
    }

    function Extract(): T
      requires Success?
    {
      value
    }
  }
}

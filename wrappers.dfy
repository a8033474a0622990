/** Small failure-carrying datatypes shared by the storage and form models. */
module Wrappers {

  /** A value that may be missing: JavaScript's `undefined`/`null` next to a value. */
  datatype Option<+T> = None | Some(value: T) {

    /** The value, or `default` when missing (JavaScript's `x ?? default`). */
    function GetOr(default: T): T {
      match this
      case Some(v) => v
      case None => default
    }
  }

  /** Completion of an asynchronous call that either resolves or rejects. */
  datatype Outcome<+E> = Pass | Fail(error: E)
}

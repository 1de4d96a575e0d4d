/** Values that stand for Python's `None`, its exceptions and the results of file reads. */
module Wrappers {

  datatype Option<+T> = None | Some(value: T)

  /** The exceptions that the collector's code can raise. */
  datatype Exception = IOError | IndexError | ValueError

  /** What a Python call does: return a value or raise an exception.
      Failure-compatible, so `:-` propagates an exception the way Python does. */
  datatype Outcome<+T> = Return(value: T) | Raise(exc: Exception) {

    predicate IsFailure() {
      Raise?
    }

    function PropagateFailure<U>(): Outcome<U>
      requires Raise?
    {
      Raise(exc)
    }

    function Extract(): T
      requires Return?
    {
      value
    }
  }

  /** What opening and reading a file gives: an IOError, or the file's content. */
  datatype FileRead<+T> = Unreadable | Content(data: T)
}

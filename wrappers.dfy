/** Optional values and results: Go's nil pointers and (value, error) pairs. */
module Wrappers {

  /** A value that may be absent, as a Go pointer that may be nil. */
  datatype Option<+T> = None | Some(value: T)

  /** The result of an operation that can fail, as Go's (value, error) pair. */
  datatype Result<+T, +E> = Ok(value: T) | Err(error: E)

  /** The elements of an optional value, as a sequence of length 0 or 1. */
  function OptionToSeq<T>(o: Option<T>): (s: seq<T>)
    ensures |s| <= 1
    ensures o.Some? <==> |s| == 1
    ensures o.Some? ==> s[0] == o.value
  {
    match o
    case None => []
    case Some(v) => [v]
  }
}

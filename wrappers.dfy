/** Failure-carrying values shared by the transport codec and the UDC epics. */
module Wrappers {

  /** A value that may be absent: JavaScript's `undefined` (or `null`) result. */
  datatype Option<+T> = None | Some(value: T)

  /** The outcome of an abstract operation that may throw: a value, or the error it raised. */
  datatype Result<+T> = Ok(value: T) | Err(reason: string)

  /** The empty or one-element sequence of an optional value. */
  function OptionToSeq<T>(o: Option<T>): (s: seq<T>)
    ensures |s| <= 1
    ensures o.None? <==> s == []
    ensures o.Some? ==> s == [o.value]
  {
    match o
    case None => []
    case Some(v) => [v]
  }
}

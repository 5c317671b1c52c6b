/** The optional value used for DOM references that may be missing. */
module Wrappers {

  datatype Option<+T> = None | Some(value: T)

  /** The values an optional value carries, as a sequence of length 0 or 1. */
  function ToSeq<T>(o: Option<T>): (s: seq<T>)
    ensures |s| <= 1
    ensures o.None? <==> s == []
    ensures o.Some? ==> s == [o.value]
  {
    match o
    case None => []
    case Some(v) => [v]
  }
}

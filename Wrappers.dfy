/** Optional values, standing in for Kotlin's nullable types. */
module Wrappers {

  datatype Option<+T> = None | Some(value: T)

  /** The elements of an optional value: `[]` for `None`, `[v]` for `Some(v)`. */
  function OptionToSeq<T>(o: Option<T>): (r: seq<T>)
    ensures |r| <= 1
    ensures o.Some? <==> |r| == 1
    ensures o.Some? ==> r[0] == o.value
  {
    match o
    case None => []
    case Some(v) => [v]
  }
}

/** Optional values: a JSON field that may be absent. */
module Wrappers {

  datatype Option<+T> = None | Some(value: T)

  /** The zero- or one-element sequence holding the value of `o`. */
  function OptionToSeq<T(!new)>(o: Option<T>): (r: seq<T>)
    ensures |r| <= 1
    ensures forall x :: x in r <==> o == Some(x)
  {
    match o
    case None => []
    case Some(v) => [v]
  }
}

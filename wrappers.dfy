/** An optional value shared by the controller and the log bridge. */
module Wrappers {

  /** An optional value: `None` stands for Go's `nil`. */
  datatype Option<+T> = None | Some(value: T)

  /** The zero- or one-element sequence holding the value of `o`. */
  function OptionToSeq<T>(o: Option<T>): (s: seq<T>)
    ensures |s| <= 1
    ensures o.Some? ==> s == [o.value]
    ensures o.None? <==> s == []
  {
    match o
    case None => []
    case Some(v) => [v]
  }
}

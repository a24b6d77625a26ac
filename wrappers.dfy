/** The optional value used for PHP's nullable types (`?LoggerInterface`, `getPrevious()`, ...). */
module Wrappers {

  datatype Option<+T> = None | Some(value: T)

  /** The sequence holding the value of `o`, if any. */
  function OptionToSeq<T>(o: Option<T>): (s: seq<T>)
    ensures |s| <= 1
    ensures o.Some? <==> |s| == 1
    ensures o.Some? ==> s[0] == o.value
  {
    if o.Some? then [o.value] else []
  }

  /** `s` when `b` holds and nothing otherwise: what an optional collaborator contributes. */
  function OnlyIf<T>(b: bool, s: seq<T>): seq<T>
  {
    if b then s else []
  }
}

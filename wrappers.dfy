/** Optional values, standing for the SDK's nullable attributes and dictionary entries. */
module Wrappers {

  datatype Option<+T> = None | Some(value: T) {

    /** The encapsulated value, or `default` when absent. */
    function GetOr(default: T): T {
      match this
      case Some(v) => v
      case None => default
    }
  }

  /** Python's `xs or []` on a nullable list: an absent list reads as the empty one. */
  function OrEmpty<T>(xs: Option<seq<T>>): (r: seq<T>)
    ensures xs.Some? ==> r == xs.value
    ensures xs.None? ==> r == []
  {
    xs.GetOr([])
  }
}

/** Optional values, standing for Swift's `Optional` (`T?`). */
module Wrappers {

  datatype Option<+T> = None | Some(value: T) {

    /** Swift's nil-coalescing `self ?? other` on two optionals. */
    function OrElse(other: Option<T>): (r: Option<T>)
      ensures r.Some? <==> Some? || other.Some?
      ensures Some? ==> r == this
      ensures None? ==> r == other
    {
      if Some? then this else other
    }
  }
}

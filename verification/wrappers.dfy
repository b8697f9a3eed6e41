/** The optional-value type shared by the routing predicate (an absent base URL)
    and the response patcher (an absent field, a failed parse). */
module Wrappers {

  datatype Option<+T> = None | Some(value: T) {

    /** Applies `f` to the carried value, if there is one. */
    function Map<U>(f: T -> U): Option<U>
    {
      match this
      case None => None
      case Some(v) => Some(f(v))
    }
  }
}

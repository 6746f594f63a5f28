/** Optional values: Kotlin's nullable types (`T?`) and the `?:` default operator. */
module Wrappers {

  /** `None` stands for Kotlin's `null`, `Some(v)` for a present value. */
  datatype Option<+T> = None | Some(value: T) {

    /** The value, or `default` when absent: Kotlin's `x ?: default`. */
    function GetOr(default: T): (r: T)
      ensures Some? ==> r == value
      ensures None? ==> r == default
    {
      match this
      case Some(v) => v
      case None => default
    }
  }
}

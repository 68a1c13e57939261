/** Optional values: Python's `None` versus a present value. */
module Wrappers {

  datatype Option<+T> = None | Some(value: T) {

    /** The value, or `default` when there is none (Python's `x or default`
        for a missing entry). */
    function GetOr(default: T): T {
      match this
      case Some(v) => v
      case None => default
    }
  }

  /** Python truthiness of an optional string argument: `None` and `""` are
      both false. */
  predicate Truthy(s: Option<string>) {
    s.Some? && s.value != ""
  }
}

/** Optional values, standing for the JavaScript values that may be absent
    (`undefined` or `null`) in the chat engine and its client. */
module Wrappers {

  datatype Option<+T> = None | Some(value: T) {

    /** Returns the value, or `default` when there is none. */
    function GetOr(default: T): T {
      match this
      case Some(v) => v
      case None => default
    }
  }

  /** JavaScript truthiness of an optional string: `x || null` keeps `x`
      only when it is present and not the empty string. */
  predicate Present(o: Option<string>) {
    o.Some? && o.value != ""
  }
}

/** The optional value used where the source tests a value for being present
    (`shopId?`, `dateRange?.from`, an empty filter box, `null` from a lookup). */
module Wrappers {

  datatype Option<+T> = None | Some(value: T) {

    /** The value held, or `default` when there is none (JavaScript's `x || default`). */
    function GetOr(default: T): T {
      match this
      case Some(v) => v
      case None => default
    }
  }
}

/** Optional and nullable slots, the two ways a JavaScript property can be missing. */
module Wrappers {

  /** An optional property: absent (`undefined`) or present. */
  datatype Option<+T> = None | Some(value: T) {

    /** `x ?? fallback` for an optional property. */
    function GetOr(fallback: T): T {
      match this
      case Some(v) => v
      case None => fallback
    }
  }

  /** A property that may hold `null`, be `undefined`, or hold a value. */
  datatype Nullable<+T> = Null | Undefined | Present(value: T) {

    /** JavaScript's `x == null`, true of both `null` and `undefined`. */
    predicate IsNullish() {
      !Present?
    }
  }
}

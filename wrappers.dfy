/** Optional values: the model's rendering of fields that may be absent
    (`undefined`) and of results that may be `null`. */
module Wrappers {

  datatype Option<+T> = None | Some(value: T) {

    /** The value if present, else `default` (the `x || default` idiom when
        the value itself cannot be falsy). */
    function GetOr(default: T): T {
      match this
      case Some(v) => v
      case None => default
    }
  }
}

/** The Option type used wherever the processor reads a nullable value. */
module Wrappers {

  datatype Option<+T> = None | Some(value: T) {

    /** Kotlin's `?.orEmpty()` / elvis default: the value if present, else `default`. */
    function GetOr(default: T): T {
      match this
      case Some(v) => v
      case None => default
    }
  }
}

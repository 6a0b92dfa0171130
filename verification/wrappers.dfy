/** The optional-value type used for JavaScript's `undefined` / `null`. */
module Wrappers {

  /** `None` stands for a value that is `undefined` or `null`. */
  datatype Option<+T> = None | Some(value: T)
  {
    /** The value, or `fallback` when absent (JavaScript's `??`). */
    function GetOr(fallback: T): T
    {
      match this
      case Some(v) => v
      case None => fallback
    }
  }
}

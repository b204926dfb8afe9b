/** Optional values: JavaScript's `undefined` / `null` and optional chaining. */
module Common {

  datatype Option<+T> = None | Some(value: T) {

    /** The `??` operator: the value when present, else the fallback. */
    function OrElse(fallback: T): T {
      match this
      case Some(v) => v
      case None => fallback
    }
  }
}

/** Optional values: JavaScript's `null`/`undefined` and the falsy fallbacks of `x || d`. */
module Options {

  datatype Option<T> = None | Some(value: T) {
    /** `x || d` for a value that is either present or absent. */
    function GetOr(default: T): T {
      match this
      case Some(v) => v
      case None => default
    }
  }

  /** The outcome of a check that either yields a value or an alert text. */
  datatype Result<T> = Ok(value: T) | Err(error: string)
}

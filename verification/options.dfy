/** Values that may be absent, and outcomes that may have thrown. */
module Options {

  /** A JavaScript value that may be `undefined`. */
  datatype Option<+T> = None | Some(value: T) {

    /** JavaScript's `x ?? fallback` on this value. */
    function GetOr(fallback: T): T {
      if Some? then value else fallback
    }
  }

  /** How an async call ended: it resolved to `value` or threw `error`. */
  datatype Result<+T, +E> = Success(value: T) | Failure(error: E)
}

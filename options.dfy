/** A value that may be absent: Python's `None` or a missing dictionary key. */
module Options {
  datatype Option<+T> = None | Some(value: T) {
    /** `x if x is not None else default` */
    function GetOr(default: T): T {
      match this
      case Some(v) => v
      case None => default
    }
  }
}

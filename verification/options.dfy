/** Python's `None`-or-value results, as a datatype. */
module Options {

  datatype Option<+T> = None | Some(value: T) {

    /** The value, or `default` for `None`. */
    function GetOr(default: T): T {
      match this
      case Some(v) => v
      case None => default
    }
  }
}

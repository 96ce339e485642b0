/** The optional value used throughout the model for JavaScript's `undefined`-or-value results. */
module Options {

  datatype Option<+T> = None | Some(value: T) {

    /** The value in Some, or `default` for None (JavaScript's `x ?? default`). */
    function GetOr(default: T): T
    {
      match this
      case Some(v) => v
      case None => default
    }
  }
}

/** Swift optionals (`T?`), used for `nil`-able values throughout the model. */
module Optional {

  datatype Option<+T> = None | Some(value: T) {

    /** Swift's `x ?? default`. */
    function GetOr(default: T): T {
      match this
      case Some(v) => v
      case None => default
    }
  }
}

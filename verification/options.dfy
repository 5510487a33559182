/** PHP's nullable values: `null` is `None`, anything else is `Some`. */
module Options {

  datatype Option<+T> = None | Some(value: T) {

    /** The value, or `default` when absent; PHP's null-coalescing `??`. */
    function GetOr(default: T): T {
      match this
      case Some(v) => v
      case None => default
    }
  }
}

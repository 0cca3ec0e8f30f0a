/** Kotlin's nullable types, `T?`, as an explicit option datatype. */
module Optional {

  /** `None` plays the part of Kotlin's `null`. */
  datatype Option<+T> = None | Some(value: T) {

    /** The value, or `default` when it is absent: Kotlin's elvis operator `?:`. */
    function OrElse(default: T): T {
      match this
      case Some(v) => v
      case None => default
    }
  }
}

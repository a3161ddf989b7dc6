/** Kotlin's nullable values, as an Option. */
module Common {

  datatype Option<T> = None | Some(value: T) {

    /** Kotlin's elvis operator `x ?: default`. */
    function GetOr(default: T): T {
      if Some? then value else default
    }
  }
}

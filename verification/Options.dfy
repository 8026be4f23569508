module Options {
  /** A value that may be absent: the source's `undefined`. */
  datatype Option<+T> = None | Some(value: T) {
    function Or(default: T): T {
      if None? then default else value
    }

    function OrElse(other: Option<T>): Option<T> {
      if None? then other else this
    }
  }
}

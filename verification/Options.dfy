/** Values that may be absent. */
module Options {

  datatype Option<+T> = None | Some(value: T) {
    function Or(fallback: T): T {
      if Some? then value else fallback
    }
  }
}

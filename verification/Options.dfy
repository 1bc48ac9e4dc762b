// A value that may be absent.

module Options {
  datatype Option<+T> = None | Some(value: T) {
    function GetOr(otherwise: T): T {
      if this.Some? then value else otherwise
    }
  }
}

/** The one helper datatype shared by every module: JavaScript's `null`/`undefined` as a value. */
module Options {
  datatype Option<+T> = None | Some(value: T) {
    function GetOr(default: T): T {
      match this
      case Some(v) => v
      case None => default
    }
  }
}

/** The usual Some/None datatype, used for values the host may fail to supply
    (the primary window, the first selected entity, a widget the user did
    not touch this frame). */
module Options {

  datatype Option<+T> = None | Some(value: T) {

    /** The value carried by `Some`, or `default` for `None`. */
    function GetOr(default: T): T {
      match this
      case Some(v) => v
      case None => default
    }
  }
}

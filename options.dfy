/** The usual Some/None datatype, used for the optional fields of a stored record
    and for DOM lookups that may come back empty. */
module Options {

  datatype Option<+T> = None | Some(value: T) {

    /** The value if present, otherwise `default` (the `{ ...defaults, ...parsed }` rule for one field). */
    function GetOr(default: T): T {
      match this
      case Some(v) => v
      case None => default
    }
  }
}

/** Optional values: a JavaScript property that may be missing, or a value that may be `null`. */
module Optional {

  datatype Option<+T> = None | Some(value: T) {

    /** The value when present, otherwise `default` (the object-spread rule "a present field wins"). */
    function GetOr(default: T): T {
      match this
      case Some(v) => v
      case None => default
    }
  }
}

/** Presence of an optional camt.053 element: `None` where PHP's `isset` is false. */
module Wrappers {

  datatype Option<+T> = None | Some(value: T) {

    /** The value if present, otherwise `default` (PHP: `isset($x) ? (string)$x : $default`). */
    function GetOr(default: T): T
    {
      match this
      case Some(v) => v
      case None => default
    }
  }
}

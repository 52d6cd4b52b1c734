/** The optional value used throughout the model: a JavaScript value that may be
    `undefined` (or `null`, once the database driver has serialised it). */
module Wrappers {

  datatype Option<+T> = None | Some(value: T) {

    function GetOr(default: T): T
    {
      match this
      case Some(v) => v
      case None => default
    }
  }
}

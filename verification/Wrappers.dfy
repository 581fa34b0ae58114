/** The two stock result types the modules share. */
module Wrappers {

  /** A nullable column, or a lookup that may find nothing. */
  datatype Option<+T> = None | Some(value: T) {
    function GetOr(default: T): T {
      if Some? then value else default
    }
  }

  /** A step that may raise: the source's exceptions. */
  datatype Outcome<+T> = Ok(value: T) | Raised(message: string)
}

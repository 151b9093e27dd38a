/** Option, Result and request-argument wrappers shared by the store modules. */
module Wrappers {

  datatype Option<+T> = None | Some(value: T) {
    function GetOr(default: T): T {
      match this
      case Some(v) => v
      case None => default
    }
  }

  datatype Result<+R, +E> = Success(value: R) | Failure(error: E)

  /**
   * A request parameter after it has been read from a query string or a
   * form: absent, present but empty, present but not of the field's type,
   * or present with a value of that type.
   */
  datatype Arg<+T> = Missing | Blank | Malformed | Given(value: T)
}

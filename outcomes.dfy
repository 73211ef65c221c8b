// Optional values and the outcome of a Python call that may raise.

module Outcomes {

  datatype Option<T> = None | Some(value: T)
  {
    function GetOr(default: T): T
    {
      match this
      case None => default
      case Some(v) => v
    }
  }

  /** The Python exceptions the modelled code raises or lets escape. */
  datatype Error =
    | KeyError
    | TypeError
    | AttributeError
    | IndexError
    | LookupError
    | ValueError
    | AssertionError
    | UnicodeEncodeError
      /** voluptuous.Invalid: a value was refused by a schema */
    | Invalid

  datatype Result<T> = Ok(value: T) | Err(error: Error)
}

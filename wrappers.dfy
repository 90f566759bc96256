/** The optional values of the source: `undefined`, `null` and absent props. */
module Wrappers {

  datatype Option<+T> = None | Some(value: T) {
    function GetOr(default: T): T {
      match this
      case Some(v) => v
      case None => default
    }
  }

  /** A value, or the error a hook throws. */
  datatype Result<+T, +E> = Ok(value: T) | Err(error: E)

  /** JavaScript truthiness of an optional string: `undefined`, `null` and `""` are falsy. */
  predicate TruthyString(s: Option<string>) {
    s.Some? && s.value != ""
  }
}

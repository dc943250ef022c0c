/** Small shared datatypes and the string tests the runtime performs on user input. */
module Prelude {

  datatype Option<+T> = None | Some(value: T)

  /** The error kinds of the runtime that callers distinguish. */
  datatype Error =
    | Cancelled
    | InvalidTransition
    | SessionNotFound
    | AuthenticationRequired
    | AccountChanged
    | ApprovalDeclined
    | PermissionDenied
    | Provider
    | Protocol
    | Storage
    | Tool

  datatype Result<+T> = Ok(value: T) | Err(error: Error)

  function Max(a: nat, b: nat): nat {
    if a < b then b else a
  }

  function Min(a: nat, b: nat): nat {
    if a < b then a else b
  }

  /** The Unicode White_Space property. */
  predicate IsWhitespace(c: char) {
    var n := c as int;
    || 0x09 <= n <= 0x0D || n == 0x20 || n == 0x85 || n == 0xA0 || n == 0x1680
    || 0x2000 <= n <= 0x200A || n == 0x2028 || n == 0x2029 || n == 0x202F
    || n == 0x205F || n == 0x3000
  }

  /** `text.trim().is_empty()` */
  predicate IsBlank(text: string) {
    forall c | c in text :: IsWhitespace(c)
  }

  /** The model identifiers the runtime accepts: non-empty and without whitespace. */
  predicate IsModelId(model: string) {
    !IsBlank(model) && forall c | c in model :: !IsWhitespace(c)
  }
}

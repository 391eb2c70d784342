/** Shared vocabulary of the rental-marketplace backend model: identifiers,
    optional values, the HTTP error kinds the handlers raise, and results. */
module Common {

  /** Row identifiers. The database hands out fresh ones; the identity
      provider hands out user ids. */
  type Id = nat

  /** An opaque instant read from the clock (the handlers call `datetime.now()`). */
  type Timestamp = int

  datatype Option<+T> = None | Some(value: T)

  /** The HTTP status codes the handlers raise. */
  datatype Status =
    | BadRequest            // 400
    | Unauthorized          // 401
    | Forbidden             // 403
    | NotFound              // 404
    | UnprocessableEntity   // 422, request-model validation
    | InternalServerError   // 500
  {
    function Code(): int
    {
      match this
      case BadRequest => 400
      case Unauthorized => 401
      case Forbidden => 403
      case NotFound => 404
      case UnprocessableEntity => 422
      case InternalServerError => 500
    }
  }

  /** An `HTTPException`: a status code and its `detail` text. */
  datatype Error = Error(status: Status, detail: string)

  datatype Result<+T> = Ok(value: T) | Err(error: Error)

  /** Python's `sub in s` on strings. */
  predicate Contains(s: string, sub: string)
  {
    exists i | 0 <= i <= |s| - |sub| :: OccursAt(s, sub, i)
  }

  /** `sub` occurs in `s` starting at index `i`. */
  predicate OccursAt(s: string, sub: string, i: nat)
  {
    i + |sub| <= |s| && s[i..i + |sub|] == sub
  }

  /** Python truthiness of an optional string: present and non-empty. */
  predicate Provided(s: Option<string>)
  {
    s.Some? && s.value != ""
  }
}

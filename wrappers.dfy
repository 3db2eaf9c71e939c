/** Option and Result types shared by the whole model. An HTTP error raised by an
    endpoint becomes an `Err` carrying the error's kind and detail text. */
module Wrappers {

  datatype Option<+T> = None | Some(value: T)

  /** The HTTP errors the endpoints raise, by status. */
  datatype Error =
    | BadRequest(detail: string)      // 400
    | Unauthorized(detail: string)    // 401
    | NotFound(detail: string)        // 404
    | Conflict(detail: string)        // 409
    | ServerError(detail: string)     // 500

  datatype Result<+T> = Ok(value: T) | Err(error: Error)

  function Min(a: int, b: int): int { if a <= b then a else b }
  function Max(a: int, b: int): int { if a >= b then a else b }

  /** Python's truth value of an optional string: present and non-empty. */
  predicate Truthy(s: Option<string>) { s.Some? && s.value != "" }
}

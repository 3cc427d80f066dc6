/** Shared vocabulary of the storefront model: optional values, validation
    results, the identifiers of stored records, the HTTP status codes the
    routes answer with, and JavaScript's truthiness of optional strings. */
module Base {

  datatype Option<T> = None | Some(value: T)

  datatype Result<T, E> = Ok(value: T) | Err(error: E)

  /** Database identifiers. The source uses ObjectId strings; only their
      identity matters here. */
  type UserId = nat
  type ProductId = nat
  type OrderId = nat
  type LineId = nat

  const OK: nat := 200
  const CREATED: nat := 201
  const BAD_REQUEST: nat := 400
  const FORBIDDEN: nat := 403
  const NOT_FOUND: nat := 404
  const SERVER_ERROR: nat := 500
  const UNAVAILABLE: nat := 503

  /** `!!s` for a value that is either a string or undefined/null:
      present and not the empty string. */
  predicate Truthy(s: Option<string>) {
    s.Some? && s.value != ""
  }

  /** `s || fallback` for an optional string. */
  function OrElse(s: Option<string>, fallback: string): string {
    if Truthy(s) then s.value else fallback
  }
}

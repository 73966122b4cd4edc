/** Option and Result, and the error kinds every callable handler raises. */
module Wrappers {
  datatype Option<T> = None | Some(value: T)

  /** The `HttpsError` codes the handlers throw. */
  datatype ErrorKind =
    | InvalidArgument
    | PermissionDenied
    | NotFound
    | FailedPrecondition
    | AlreadyExists
    | Unauthenticated
    | Internal

  datatype Result<T> = Ok(value: T) | Err(error: ErrorKind)

  /** JavaScript truthiness of an optional string field: present and not empty. */
  predicate Truthy(o: Option<string>)
  {
    o.Some? && o.value != ""
  }

  /** `x || null` for an optional string: an empty string becomes null. */
  function OrNull(o: Option<string>): (r: Option<string>)
    ensures r.Some? <==> Truthy(o)
    ensures r.Some? ==> r == o
  {
    if Truthy(o) then o else None
  }

  /** `x || fallback` for an optional string. */
  function OrElse(o: Option<string>, fallback: string): (r: string)
    ensures Truthy(o) ==> r == o.value
    ensures !Truthy(o) ==> r == fallback
  {
    if Truthy(o) then o.value else fallback
  }
}

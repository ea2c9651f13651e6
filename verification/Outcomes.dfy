/** What every store shares: error codes, optional values, and the larger and smaller of two quantities. */
module Outcomes {

  datatype Option<+T> = None | Some(value: T)

  /** The `code` of an ApplicationError, or of an McpAdapterError. */
  datatype Error =
    | NotFound
    | Validation
    | Conflict
    | IntegrityError
    | ProjectRemoved
    | Forbidden
    | UploadExpired
    | QuotaExceeded
    | InvalidArgument
    | BackendError

  datatype Result<+T> = Ok(value: T) | Err(error: Error)

  /** `ensureVersion`: an absent expectation never conflicts. */
  predicate Stale(actual: nat, expected: Option<nat>) {
    expected.Some? && expected.value != actual
  }

  function Min(a: real, b: real): real { if a <= b then a else b }

  function Max(a: real, b: real): real { if a <= b then b else a }
}

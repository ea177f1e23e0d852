/**
 * Thrown values. `ApiError` is the project's error class (status code, message, list of
 * errors); every other thrown value (a plain `Error`, a `TypeError`, a Redis reply error,
 * a MongoDB server error, a ZodError) is `Thrown`, described by the properties the error
 * middleware reads from it.
 */
module ApiErrors {
  import opened Wrappers

  datatype Err =
    | ApiError(statusCode: int, message: string, errors: seq<string>)
    | Thrown(rawStatusCode: Option<int>, rawMessage: Option<string>, rawErrors: Option<seq<string>>, isMongoose: bool)

  /** `new ApiError(statusCode, message)`. */
  function NewApiError(statusCode: int, message: string): Err {
    ApiError(statusCode, message, [])
  }

  /** `new Error(message)` and the other non-ApiError throws: a message and nothing else. */
  function PlainError(message: string): Err {
    Thrown(None, Some(message), None, false)
  }
}

/**
 * The errors the core throws. The first four are the typed `McpError` kinds of the
 * error utility (its constructors are not part of this model, only their arguments);
 * the last two are plain JavaScript errors that are not `McpError`s.
 */
module Errors {
  import opened Wrappers

  datatype Error =
    /** No credentials configured; `None` stands for the constructor's default message. */
    | AuthMissing(detail: Option<string>)
    /** Rejected or incomplete credentials. */
    | AuthInvalid(message: string)
    /** An HTTP or network failure, with the status code and the raw response body when there is one. */
    | ApiError(message: string, status: int, body: Option<string>)
    | Unexpected(message: string)
    /** `new Error(message)`, used for parameter validation. */
    | PlainError(message: string)
    /** A `SyntaxError` raised by `JSON.parse`, reaching the caller without classification. */
    | RawSyntaxError(message: string)

  /** The error is one of the typed kinds the servers' error handler recognises. */
  predicate IsMcpError(e: Error)
  {
    e.AuthMissing? || e.AuthInvalid? || e.ApiError? || e.Unexpected?
  }

  /** The error message every service raises when no credentials are configured. */
  const CredentialsRequired := "Atlassian credentials are required for this operation"
}

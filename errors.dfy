/**
 * The error classes of the command-line client. Every failure surfaces as
 * one of these; the top-level handler prints `Error: <message>` and exits
 * with status 1 (that printing is not part of this model).
 */
module Errors {

  const AuthErrorMessage := "No API key provided.\nSet PYLON_API_KEY environment variable or pass --api-key <key>"

  datatype PylonError =
    | AuthError                                   // no API key could be resolved
    | ApiError(statusCode: int, message: string)  // an HTTP failure, or 0 after exhausted retries
    | ValidationError(message: string)            // bad command-line input
    | PlainError(message: string)                 // any other `Error`: the credential store's, or a runtime `TypeError`

  function Message(e: PylonError): string {
    match e
    case AuthError => AuthErrorMessage
    case ApiError(_, m) => m
    case ValidationError(m) => m
    case PlainError(m) => m
  }
}

/**
 * Errors leaving a service: an `AppError` carries the HTTP status and message
 * the error handler answers with; a document the schema refuses raises a
 * validation error, which the handler, like anything else thrown, answers with
 * 500 "Internal server error".
 */
module Errors {
  import opened WorkflowModel

  datatype Err =
    | AppError(status: int, message: string)
    | Invalid(error: SchemaError)
    | Thrown(message: string)
}

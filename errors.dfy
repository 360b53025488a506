/**
 * The shapes of the errors that reach the error middleware: errors the controllers raise
 * with a `statusCode`, and the errors Mongoose and the libraries throw.
 */
module Errors {
  import opened Wrappers

  /** The fields of a thrown error that the error middleware inspects. A field the error
      does not carry is None (or empty). */
  datatype ErrorValue = ErrorValue(
    name: string,               // err.name
    code: Option<int>,          // err.code (MongoDB server errors)
    value: string,              // err.value (the offending value of a CastError)
    statusCode: Option<int>,    // set by the controllers: (error as any).statusCode = ...
    message: string,            // err.message
    fieldMessages: seq<string>  // Object.values(err.errors).map(v => v.message)
  )

  /** `const error = new Error(message); (error as any).statusCode = status;` */
  function AppError(status: int, message: string): ErrorValue {
    ErrorValue("Error", None, "", Some(status), message, [])
  }

  /** An error thrown by a library without a status code. */
  function PlainError(message: string): ErrorValue {
    ErrorValue("Error", None, "", None, message, [])
  }

  /** Mongoose's ValidationError, one message per failing path in schema order. */
  function ValidationFailure(model: string, messages: seq<string>): ErrorValue {
    ErrorValue("ValidationError", None, "", None, model + " validation failed", messages)
  }

  /** MongoDB's E11000 duplicate key error raised by a unique index. */
  function DuplicateKey(): ErrorValue {
    ErrorValue("MongoServerError", Some(11000), "", None, "E11000 duplicate key error", [])
  }

  /** Mongoose's CastError for a value that is not an ObjectId. */
  function CastFailure(value: string): ErrorValue {
    ErrorValue("CastError", None, value, None, "Cast to ObjectId failed", [])
  }
}

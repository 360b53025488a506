/**
 * The terminal error handler: maps the shape of a forwarded error to a status code and a
 * `{ success: false, message }` body.
 */
module ErrorMiddleware {
  import opened Wrappers
  import opened Errors
  import opened Text
  import opened Http

  const ServerError := "Server Error"
  const DuplicateMessage := "Duplicate field value entered"

  function CastMessage(value: string): string {
    "Resource not found with id of " + value
  }

  function ValidationMessage(messages: seq<string>): string {
    "Invalid input data. " + Join(messages, ". ")
  }

  /** Reference reading of the handler: the LAST matching shape decides (ValidationError over
      a duplicate key over a CastError over the error's own fields); a missing or zero status
      becomes 500 and an empty message "Server Error". */
  function Reply(err: ErrorValue): (int, string) {
    var (status, message) :=
      if err.name == "ValidationError" then (Some(400), ValidationMessage(err.fieldMessages))
      else if err.code == Some(11000) then (Some(400), DuplicateMessage)
      else if err.name == "CastError" then (Some(404), CastMessage(err.value))
      else (err.statusCode, err.message);
    (if status.Some? && status.value != 0 then status.value else 500,
     if message != "" then message else ServerError)
  }

  /** The handler's own sequence of `if`s, each replacing the local `error`. */
  method ResolveError(err: ErrorValue) returns (status: int, message: string)
    ensures (status, message) == Reply(err)
  {
    // let error = { ...err }; error.message = err.message;
    var statusCode := err.statusCode;
    var msg := err.message;
    if err.name == "CastError" {
      msg := CastMessage(err.value);
      statusCode := Some(404);
    }
    if err.code == Some(11000) {
      msg := DuplicateMessage;
      statusCode := Some(400);
    }
    if err.name == "ValidationError" {
      msg := ValidationMessage(err.fieldMessages);
      statusCode := Some(400);
    }
    status := if statusCode.Some? && statusCode.value != 0 then statusCode.value else 500;
    message := if msg != "" then msg else ServerError;
  }

  /** `errorMiddleware(err, req, res, next)`. */
  method HandleError(err: ErrorValue, res: Response)
    modifies res`statusCode, res`body
    ensures res.statusCode == Reply(err).0 && res.body == Some(Failure(Reply(err).1))
  {
    var status, message := ResolveError(err);
    res.Json(status, Failure(message));
  }

  /** What each recognised error shape becomes. */
  lemma ReplyShapes(err: ErrorValue)
    ensures err.name == "ValidationError" ==>
              Reply(err) == (400, ValidationMessage(err.fieldMessages))
    ensures err.name != "ValidationError" && err.code == Some(11000) ==>
              Reply(err) == (400, DuplicateMessage)
    ensures err.name == "CastError" && err.code != Some(11000) ==>
              Reply(err) == (404, CastMessage(err.value))
    ensures err.name != "ValidationError" && err.name != "CastError" && err.code != Some(11000) ==>
              Reply(err).0 == (if err.statusCode.Some? && err.statusCode.value != 0 then err.statusCode.value else 500) &&
              Reply(err).1 == (if err.message != "" then err.message else ServerError)
  {
  }

  /** An error a controller raised with a status code reaches the client unchanged. */
  lemma ControllerErrorReachesClient(status: int, message: string)
    requires status != 0 && message != ""
    ensures Reply(AppError(status, message)) == (status, message)
  {
  }

  /** A library error without a status code is a 500. */
  lemma LibraryErrorIsServerError(message: string)
    ensures Reply(PlainError(message)).0 == 500
  {
  }

  /** A Mongoose validation failure is a 400 listing the field messages. */
  lemma ValidationFailureReply(model: string, messages: seq<string>)
    ensures Reply(ValidationFailure(model, messages)) == (400, ValidationMessage(messages))
  {
  }
}

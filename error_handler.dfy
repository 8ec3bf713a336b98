/**
 * `ApiError` and the global error handler: how an error object becomes the status code,
 * message and data of the error response.
 */
module ErrorHandler {
  import opened Common

  /** The `data` of an error response. */
  datatype ErrorData =
    | NoData                      // null
    | Detail(detail: Value)       // an error's own `data`
    | Messages(messages: seq<string>)  // the messages of a validation error's sub-errors
    | KeyValue(keyValue: Body)    // the duplicated key of a duplicate-key error

  /**
   * What the handler reads of an error object. An absent `statusCode` or `code` is 0 and
   * an absent `message` is "", which is how `||` and `===` treat them.
   */
  datatype ErrorObject = ErrorObject(
    name: string,
    message: string,
    statusCode: int,
    data: ErrorData,
    code: int,
    errors: seq<string>,
    keyValue: Body)

  /** The status code, message and data the handler answers with. */
  datatype ErrorResponse = ErrorResponse(statusCode: int, message: string, data: ErrorData)

  const DUPLICATE_KEY: int := 11000

  /** `new ApiError(statusCode, message, data = null)`. */
  function NewApiError(statusCode: int, message: string, data: ErrorData := NoData): (e: ErrorObject)
    ensures e.name == "ApiError" && e.statusCode == statusCode && e.message == message && e.data == data
  {
    ErrorObject("ApiError", message, statusCode, data, 0, [], [])
  }

  /** `err.data || null`. */
  function DataOrNull(d: ErrorData): ErrorData
  {
    if d.Detail? && !Truthy(d.detail) then NoData else d
  }

  /**
   * The handler's answer, written by priority rather than by overriding: the token errors
   * decide status and message first, then a duplicate key, then a validation error, and
   * only then the error's own status code and message. A token error keeps the data the
   * earlier checks chose.
   */
  function Classify(err: ErrorObject): (r: ErrorResponse)
    ensures err.name == "ValidationError" && err.code != DUPLICATE_KEY ==>
              r == ErrorResponse(400, "Validation error", Messages(err.errors))
    ensures err.code == DUPLICATE_KEY && err.name !in {"JsonWebTokenError", "TokenExpiredError"} ==>
              r == ErrorResponse(400, "Duplicate field value entered", KeyValue(err.keyValue))
    ensures err.name == "JsonWebTokenError" ==> r.statusCode == 401 && r.message == "Invalid token"
    ensures err.name == "TokenExpiredError" ==> r.statusCode == 401 && r.message == "Token expired"
    ensures err.name in {"JsonWebTokenError", "TokenExpiredError"} ==>
              r.data == if err.code == DUPLICATE_KEY then KeyValue(err.keyValue) else DataOrNull(err.data)
    ensures err.name !in {"ValidationError", "JsonWebTokenError", "TokenExpiredError"} && err.code != DUPLICATE_KEY ==>
              r.statusCode == (if err.statusCode != 0 then err.statusCode else 500)
              && r.message == (if err.message != "" then err.message else "Something went wrong")
              && r.data == DataOrNull(err.data)
  {
    var tokenError := err.name == "JsonWebTokenError" || err.name == "TokenExpiredError";
    var duplicate := err.code == DUPLICATE_KEY;
    var validation := err.name == "ValidationError";
    var statusCode :=
      if tokenError then 401
      else if duplicate || validation then 400
      else if err.statusCode != 0 then err.statusCode
      else 500;
    var message :=
      if err.name == "TokenExpiredError" then "Token expired"
      else if err.name == "JsonWebTokenError" then "Invalid token"
      else if duplicate then "Duplicate field value entered"
      else if validation then "Validation error"
      else if err.message != "" then err.message
      else "Something went wrong";
    var data :=
      if duplicate then KeyValue(err.keyValue)
      else if validation then Messages(err.errors)
      else DataOrNull(err.data);
    ErrorResponse(statusCode, message, data)
  }

  /**
   * `errorHandler`: start from the error's own status code, message and data, then let each
   * special case in turn overwrite them.
   */
  method HandleError(err: ErrorObject) returns (r: ErrorResponse)
    ensures r == Classify(err)
  {
    var statusCode := if err.statusCode != 0 then err.statusCode else 500;
    var message := if err.message != "" then err.message else "Something went wrong";
    var data := DataOrNull(err.data);
    if err.name == "ValidationError" {
      statusCode := 400;
      message := "Validation error";
      data := Messages(err.errors);
    }
    if err.code == DUPLICATE_KEY {
      statusCode := 400;
      message := "Duplicate field value entered";
      data := KeyValue(err.keyValue);
    }
    if err.name == "JsonWebTokenError" {
      statusCode := 401;
      message := "Invalid token";
    }
    if err.name == "TokenExpiredError" {
      statusCode := 401;
      message := "Token expired";
    }
    r := ErrorResponse(statusCode, message, data);
  }

  /** An ApiError with a status code and a message reaches the client with exactly those and its data. */
  lemma ApiErrorAnswered(statusCode: int, message: string, data: ErrorData)
    requires statusCode != 0 && message != ""
    ensures Classify(NewApiError(statusCode, message, data)) == ErrorResponse(statusCode, message, DataOrNull(data))
  {
  }
}

/** The response builders of src/utils/errorHandler.js. They only build records; the
    logging they do is not modelled. */
module ErrorHandling {

  import opened Wrappers
  import opened Constants
  import opened Protocol

  /** `{ success, message, error?, data? }`; an absent optional field is `None`. */
  datatype ApiResponse<D> = ApiResponse(success: bool, message: string, error: Option<string>, data: Option<D>)

  /** What `res.status(status).json(body)` sends. */
  datatype JsonReply<D> = JsonReply(status: nat, body: ApiResponse<D>)

  const INTERNAL_SERVER_ERROR: string := "Internal server error"

  /** `createErrorResponse(message, error = null, includeErrorDetails = false)` */
  function CreateErrorResponse<D>(message: string, error: Option<Exception> := None, includeErrorDetails: bool := false)
    : (r: ApiResponse<D>)
    ensures !r.success && r.message == message && r.data.None?
    ensures r.error.Some? <==> error.Some? && includeErrorDetails
    ensures r.error.Some? ==> r.error.value == error.value.message
  {
    ApiResponse(false, message, if error.Some? && includeErrorDetails then Some(error.value.message) else None, None)
  }

  /** `createSuccessResponse(message, data = null)` */
  function CreateSuccessResponse<D>(message: string, data: Option<D> := None): (r: ApiResponse<D>)
    ensures r.success && r.message == message && r.error.None?
    ensures r.data.Some? <==> data.Some?
    ensures r.data.Some? ==> r.data.value == data.value
  {
    ApiResponse(true, message, None, data)
  }

  /** `handleApiError(error, res)`; `nodeEnv` is `process.env.NODE_ENV`. */
  function HandleApiError<D>(error: Exception, nodeEnv: string): (r: JsonReply<D>)
    ensures !r.body.success && r.body.data.None?
    ensures error.message == ALREADY_RUNNING ==>
      r.status == STATUS_OK && r.body.message == ALREADY_RUNNING && r.body.error.None?
    ensures error.message != ALREADY_RUNNING ==>
      && r.status == STATUS_INTERNAL_ERROR
      && r.body.message == INTERNAL_SERVER_ERROR
      && (r.body.error.Some? <==> nodeEnv == "development")
      && (r.body.error.Some? ==> r.body.error.value == error.message)
  {
    if error.message == ALREADY_RUNNING then
      JsonReply(STATUS_OK, CreateErrorResponse(ALREADY_RUNNING))
    else
      var includeErrorDetails := nodeEnv == "development";
      JsonReply(STATUS_INTERNAL_ERROR, CreateErrorResponse(INTERNAL_SERVER_ERROR, Some(error), includeErrorDetails))
  }

  /** `safeExecute(operation, errorMessage)`: `outcome` is how the awaited operation settled;
      the result is passed through and an error, once logged, is thrown again. */
  function SafeExecute<T>(outcome: Result<T, Exception>, errorMessage: string): (r: Result<T, Exception>)
    ensures r.Success? <==> outcome.Success?
    ensures r.Success? ==> r.value == outcome.value
    ensures r.Failure? ==> r.error == outcome.error
  {
    match outcome
    case Success(v) => Success(v)
    case Failure(e) => Failure(e)
  }
}

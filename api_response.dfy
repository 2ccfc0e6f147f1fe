/** The route-handler response helpers. They classify errors like the
    server-action helpers, but recognise the CustomError of
    src/shared/errors/error.ts and also choose how the error is logged. */
module ApiResponses {
  import opened Common
  import ActionResponses

  /** `console.error` or `console.log`. */
  datatype LogLevel = LogError | LogInfo

  /** `generateApiSuccessResponse(data)`. */
  function GenerateApiSuccessResponse<T>(data: T): (r: Response<T>)
    ensures r.ok() && r.data == data
  {
    Success(data)
  }

  /** `generateApiErrorResponse(logPrefix, defaultMessage, error)`: the
      response, and the level the error is logged at (the prefix only
      decorates the log line). */
  function GenerateApiErrorResponse<T>(defaultMessage: string, error: Thrown): (r: (Response<T>, LogLevel))
    ensures !r.0.ok()
    ensures error.Custom? && error.cls == ErrorsCustomError ==>
      r.0.error == ErrorBody(error.code, error.message, error.data) &&
      (r.1 == LogError <==> error.code == InternalServerError)
    ensures error.PlainError? || (error.Custom? && error.cls != ErrorsCustomError) ==>
      r.0.error == ErrorBody(InternalServerError, ActionResponses.MessageOr(error.message, defaultMessage), None) &&
      r.1 == LogError
    ensures error.NonError? ==> r.0.error == ErrorBody(InternalServerError, defaultMessage, None) && r.1 == LogError
  {
    match error
    case Custom(cls, code, message, data) =>
      if cls == ErrorsCustomError then
        (Failure(ErrorBody(code, message, data)), if code == InternalServerError then LogError else LogInfo)
      else (Failure(ErrorBody(InternalServerError, ActionResponses.MessageOr(message, defaultMessage), None)), LogError)
    case PlainError(message) =>
      (Failure(ErrorBody(InternalServerError, ActionResponses.MessageOr(message, defaultMessage), None)), LogError)
    case NonError => (Failure(ErrorBody(InternalServerError, defaultMessage, None)), LogError)
  }

  /** An error is logged at info level iff it is a recognised CustomError
      with a code other than INTERNAL_SERVER_ERROR; in every case the level
      is error iff the response's code is INTERNAL_SERVER_ERROR. */
  lemma LogLevelFollowsCode<T>(defaultMessage: string, error: Thrown)
    ensures var (r, level) := GenerateApiErrorResponse<T>(defaultMessage, error);
      && (level == LogInfo <==> error.Custom? && error.cls == ErrorsCustomError && error.code != InternalServerError)
      && (level == LogError <==> r.error.code == InternalServerError)
  {
  }

  /** The two helpers give the same error body except on a CustomError: each
      keeps the code and data of its own class and demotes the other class
      to INTERNAL_SERVER_ERROR. */
  lemma HelpersDifferOnlyInClass<T>(defaultMessage: string, error: Thrown)
    ensures var api := GenerateApiErrorResponse<T>(defaultMessage, error).0;
      var action: Response<T> := ActionResponses.GenerateActionErrorResponse(defaultMessage, error);
      && (!error.Custom? ==> api == action)
      && (error.Custom? && error.cls == UtilsCustomError ==>
            action.error == ErrorBody(error.code, error.message, error.data) &&
            api.error == ErrorBody(InternalServerError, ActionResponses.MessageOr(error.message, defaultMessage), None))
      && (error.Custom? && error.cls == ErrorsCustomError ==>
            api.error == ErrorBody(error.code, error.message, error.data) &&
            action.error == ErrorBody(InternalServerError, ActionResponses.MessageOr(error.message, defaultMessage), None))
  {
  }
}

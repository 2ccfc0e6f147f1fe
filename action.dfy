/** The server-action response helpers: a success wraps the data, an error
    is classified into a code and a message. The CustomError recognised here
    is the class of src/shared/utils/error.ts. */
module ActionResponses {
  import opened Common

  /** `generateActionSuccessResponse(data)`. */
  function GenerateActionSuccessResponse<T>(data: T): (r: Response<T>)
    ensures r.ok() && r.data == data
  {
    Success(data)
  }

  /** `error.message || defaultMessage`. */
  function MessageOr(message: string, defaultMessage: string): (m: string)
    ensures message != "" ==> m == message
    ensures message == "" ==> m == defaultMessage
  {
    if message != "" then message else defaultMessage
  }

  /** `generateActionErrorResponse(defaultMessage, error)`. A CustomError of
      the other class is still an `Error`, so it takes the second branch. */
  function GenerateActionErrorResponse<T>(defaultMessage: string, error: Thrown): (r: Response<T>)
    ensures !r.ok()
    ensures error.Custom? && error.cls == UtilsCustomError ==>
      r.error == ErrorBody(error.code, error.message, error.data)
    ensures error.PlainError? || (error.Custom? && error.cls != UtilsCustomError) ==>
      r.error == ErrorBody(InternalServerError, MessageOr(error.message, defaultMessage), None)
    ensures error.NonError? ==> r.error == ErrorBody(InternalServerError, defaultMessage, None)
  {
    match error
    case Custom(cls, code, message, data) =>
      if cls == UtilsCustomError then Failure(ErrorBody(code, message, data))
      else Failure(ErrorBody(InternalServerError, MessageOr(message, defaultMessage), None))
    case PlainError(message) => Failure(ErrorBody(InternalServerError, MessageOr(message, defaultMessage), None))
    case NonError => Failure(ErrorBody(InternalServerError, defaultMessage, None))
  }

  /** Only a recognised CustomError can give a code other than
      INTERNAL_SERVER_ERROR or carry data, and with a non-empty default the
      message is empty only when that CustomError's own message is. */
  lemma ActionErrorOrigin<T>(defaultMessage: string, error: Thrown)
    ensures var r: Response<T> := GenerateActionErrorResponse(defaultMessage, error);
      && (r.error.code != InternalServerError || r.error.data.Some? ==>
            error.Custom? && error.cls == UtilsCustomError && r.error.code == error.code && r.error.data == error.data)
      && (defaultMessage != "" && r.error.message == "" ==>
            error.Custom? && error.cls == UtilsCustomError && error.message == "")
  {
  }
}

/** The structured error body an AI service returns with a failed request:
    `{"error": {"message": ..., "code": ...}}`, each level possibly null. */
module ErrorBody {
  import opened Wrappers

  /** `AIError.ErrorDetails`: a possibly-null message and a possibly-null code. */
  datatype ErrorDetails = ErrorDetails(message: Option<string>, code: Option<string>)

  /** `AIError`: a possibly-null `error` object. */
  datatype AIError = AIError(error: Option<ErrorDetails>)

  /** `getErrorMessage()`: the details' message, empty when there are no details or no message. */
  function GetErrorMessage(e: AIError): (r: Option<string>)
    ensures e.error.None? ==> r.None?
    ensures e.error.Some? ==> r == e.error.value.message
  {
    match e.error
    case None => None
    case Some(details) => details.message
  }

  /** `getErrorCode()`: the details' code, empty when there are no details or no code. */
  function GetErrorCode(e: AIError): (r: Option<string>)
    ensures r.Some? <==> e.error.Some? && e.error.value.code.Some?
    ensures r.Some? ==> r.value == e.error.value.code.value
  {
    if e.error.Some? then e.error.value.code else None
  }

  /** The message depends on the message field only and the code on the code field only. */
  lemma MessageAndCodeIndependent(m: Option<string>, c1: Option<string>, c2: Option<string>, m1: Option<string>, m2: Option<string>, c: Option<string>)
    ensures GetErrorMessage(AIError(Some(ErrorDetails(m, c1)))) == GetErrorMessage(AIError(Some(ErrorDetails(m, c2)))) == m
    ensures GetErrorCode(AIError(Some(ErrorDetails(m1, c)))) == GetErrorCode(AIError(Some(ErrorDetails(m2, c)))) == c
  {
  }
}

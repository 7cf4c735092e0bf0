/** `AiServiceUtil`: translating failed HTTP calls into `AIConnectionException`s, the
    invalid-API-key test, the synchronous call wrapper and the proxy decision. */
module ServiceUtil {
  import opened Wrappers
  import opened Http
  import JavaText
  import opened ErrorBody

  /** The error body of a failed response, as `errorBody().string()` yields it. */
  datatype ErrorBodyText =
    | NoErrorBody                 // errorBody() is null
    | ErrorText(text: string)     // the body's text
    | UnreadableErrorBody         // string() threw an IOException

  /** A Retrofit `HttpException` built from an unsuccessful response. */
  datatype HttpError = HttpError(code: int, message: string, errorBody: ErrorBodyText)

  /** Jackson reading an error body as `AIError`. */
  type ErrorParser = string -> Parsed<AIError>

  /** An exception `processHttpException` or `execute` ends with: an `AIConnectionException`, or
      the NullPointerException of `error.getErrorMessage()` when the error body is the JSON
      literal `null` (Jackson then reads it as null, and the `catch` only takes IOExceptions). */
  datatype CallException = AIConnection(error: ConnectionError) | NullErrorBody

  /** `HttpException.getMessage()`: "HTTP " + code + " " + the response's status message. */
  function HttpExceptionMessage(code: int, statusMessage: string): string {
    "HTTP " + JavaText.IntToString(code) + " " + statusMessage
  }

  /** The literal code an OpenAI-style service uses for a rejected key. */
  const INVALID_API_KEY: string := "invalid_api_key"

  /** What `processHttpException(e)` ends with: the default error (the exception's message and
      its status as a decimal string), replaced by the body's message and code when the body is
      present, readable and parses as `AIError`; a body that reads as JSON `null` makes it throw. */
  function TranslatedHttpError(e: HttpError, parseError: ErrorParser): (r: CallException)
    ensures r.NullErrorBody? <==> e.errorBody.ErrorText? && parseError(e.errorBody.text).JsonNull?
    ensures r.AIConnection? ==> r.error.cause == HttpCause(e.code, HttpExceptionMessage(e.code, e.message))
  {
    var message := HttpExceptionMessage(e.code, e.message);
    var fallback := ConnectionError(message, Some(JavaText.IntToString(e.code)), HttpCause(e.code, message));
    match e.errorBody
    case ErrorText(text) =>
      (match parseError(text)
       case Item(error) =>
         AIConnection(ConnectionError(GetErrorMessage(error).GetOr(message), GetErrorCode(error), HttpCause(e.code, message)))
       case JsonNull => NullErrorBody
       case Malformed => AIConnection(fallback))
    case _ => AIConnection(fallback)
  }

  /** `processHttpException(e)`: starts from the default error and replaces it only when the
      error body parses; returns the error, or ends with the exception it throws. */
  method ProcessHttpException(e: HttpError, parseError: ErrorParser) returns (outcome: CallException)
    ensures outcome == TranslatedHttpError(e, parseError)
  {
    var message := HttpExceptionMessage(e.code, e.message);
    var error := ConnectionError(message, Some(JavaText.IntToString(e.code)), HttpCause(e.code, message));
    if e.errorBody.ErrorText? {
      var parsed := parseError(e.errorBody.text);
      if parsed.JsonNull? {
        // `error.getErrorMessage()` on null.
        return NullErrorBody;
      }
      if parsed.Item? {
        var errorMessage := GetErrorMessage(parsed.value);
        error := ConnectionError(
          if errorMessage.Some? then errorMessage.value else message,
          GetErrorCode(parsed.value),
          HttpCause(e.code, message));
      }
    }
    outcome := AIConnection(error);
  }

  /** Without a body that reads as an `AIError` or as null, the translated error keeps the
      exception's message and the decimal status code. */
  lemma DefaultTranslation(e: HttpError, parseError: ErrorParser)
    requires !e.errorBody.ErrorText? || parseError(e.errorBody.text).Malformed?
    ensures TranslatedHttpError(e, parseError).AIConnection?
    ensures TranslatedHttpError(e, parseError).error.message == HttpExceptionMessage(e.code, e.message)
    ensures TranslatedHttpError(e, parseError).error.code == Some(JavaText.IntToString(e.code))
  {
  }

  /** With a parsed body the translated error takes the body's message (the exception's when
      the body has none) and the body's code (null when the body has none). */
  lemma ParsedTranslation(e: HttpError, parseError: ErrorParser, error: AIError)
    requires e.errorBody.ErrorText? && parseError(e.errorBody.text) == Item(error)
    ensures TranslatedHttpError(e, parseError).AIConnection?
    ensures TranslatedHttpError(e, parseError).error.message
         == if GetErrorMessage(error).Some? then GetErrorMessage(error).value else HttpExceptionMessage(e.code, e.message)
    ensures TranslatedHttpError(e, parseError).error.code == GetErrorCode(error)
  {
  }

  /** `isInvalidOpenAiApiKey(code, status)`. */
  predicate IsInvalidOpenAiApiKey(customErrorCode: Option<string>, httpErrorCode: int) {
    httpErrorCode == 401 && (customErrorCode.None? || customErrorCode.value == INVALID_API_KEY)
  }

  /** A 401 whose body reads `{"error":{"message":"bad key","code":"invalid_api_key"}}` becomes an
      error with that message and code, and is classified as an invalid key. */
  lemma InvalidKeyExample(statusMessage: string, body: string, parseError: ErrorParser)
    requires parseError(body) == Item(AIError(Some(ErrorDetails(Some("bad key"), Some(INVALID_API_KEY)))))
    ensures var outcome := TranslatedHttpError(HttpError(401, statusMessage, ErrorText(body)), parseError);
      && outcome.AIConnection?
      && outcome.error.message == "bad key"
      && outcome.error.code == Some(INVALID_API_KEY)
      && IsInvalidOpenAiApiKey(outcome.error.code, 401)
  {
  }

  /** A key that is merely rejected with another code, or a failure that is not a 401, is not an
      invalid key; a 401 with no code at all is. */
  lemma InvalidKeyClassification(code: string, status: int)
    ensures IsInvalidOpenAiApiKey(None, 401) && IsInvalidOpenAiApiKey(Some(INVALID_API_KEY), 401)
    ensures code != INVALID_API_KEY ==> !IsInvalidOpenAiApiKey(Some(code), status)
    ensures status != 401 ==> !IsInvalidOpenAiApiKey(Some(code), status) && !IsInvalidOpenAiApiKey(None, status)
  {
  }

  /** What `apiCall.execute()` produced: a response (with a possibly-null decoded body) or an IOException. */
  datatype CallReply<T> =
    | Replied(code: int, statusMessage: string, body: Option<T>, errorBody: ErrorBodyText)
    | CallIOFailure(message: string)

  /** `execute(apiCall)`: the body of a successful response; the translated HTTP error of an
      unsuccessful one, or the NullPointerException translating it throws, which the `catch`
      for IOExceptions lets through; an IOException as an AIConnectionException with the empty
      code. */
  function Execute<T>(reply: CallReply<T>, parseError: ErrorParser): (r: Result<Option<T>, CallException>)
    ensures reply.Replied? && IsSuccessful(reply.code) ==> r == Success(reply.body)
    ensures reply.Replied? && !IsSuccessful(reply.code)
        ==> r == Failure(TranslatedHttpError(HttpError(reply.code, reply.statusMessage, reply.errorBody), parseError))
    ensures reply.CallIOFailure? ==> r == Failure(AIConnection(ConnectionError(reply.message, Some(""), IOCause(reply.message))))
    ensures r == Failure(NullErrorBody)
        <==> reply.Replied? && !IsSuccessful(reply.code) && reply.errorBody.ErrorText? && parseError(reply.errorBody.text).JsonNull?
  {
    match reply
    case CallIOFailure(message) => Failure(AIConnection(ConnectionError(message, Some(""), IOCause(message))))
    case Replied(code, statusMessage, body, errorBody) =>
      if IsSuccessful(code) then Success(body)
      else Failure(TranslatedHttpError(HttpError(code, statusMessage, errorBody), parseError))
  }

  /** `configureProxy(builder, url, provider)`: an HTTP proxy is set only when the provider has
      settings for the URL and their host resolves; otherwise the builder comes back unchanged. */
  method ConfigureProxy(builder: ClientBuilder, url: string, provider: ProxyProvider, resolve: Resolver)
    returns (configured: ClientBuilder)
    ensures provider.infoFor(url).Some? && resolve(provider.infoFor(url).value.host).Some?
        ==> configured == builder.(proxy := Some(HttpProxy(resolve(provider.infoFor(url).value.host).value,
                                                            provider.infoFor(url).value.port)))
    ensures provider.infoFor(url).None? || resolve(provider.infoFor(url).value.host).None?
        ==> configured == builder
  {
    var proxy: Option<Proxy> := None;
    var proxyInfo := provider.infoFor(url);
    if proxyInfo.Some? {
      var address := resolve(proxyInfo.value.host);
      if address.Some? {
        proxy := Some(HttpProxy(address.value, proxyInfo.value.port));
      }
    }
    configured := builder;
    if proxy.Some? {
      configured := configured.(proxy := proxy);
    }
  }

  /** The proxy `configureProxy` sets on a fresh builder for `url`, as a value. */
  function ProxyFor(url: string, provider: ProxyProvider, resolve: Resolver): (p: Option<Proxy>)
    ensures p.Some? <==> provider.infoFor(url).Some? && resolve(provider.infoFor(url).value.host).Some?
    ensures p.Some? ==> p.value.port == provider.infoFor(url).value.port
  {
    match provider.infoFor(url)
    case None => None
    case Some(info) =>
      match resolve(info.host)
      case None => None
      case Some(address) => Some(HttpProxy(address, info.port))
  }
}

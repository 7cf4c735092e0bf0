/** `ClientCredentialsAuthenticator`: OkHttp's reactive authentication hook. On an
    authentication challenge it (re)loads the client-credentials token when needed and retries
    the request once with a bearer `Authorization` header. */
module ClientCredentials {
  import opened Wrappers
  import opened Http
  import TokenProvider

  /** The number of responses before `r` in its prior-response chain. */
  function PriorCount(r: Response): nat {
    match r.priorResponse
    case None => 0
    case Some(p) => 1 + PriorCount(p)
  }

  function Min(a: int, b: int): int {
    if a <= b then a else b
  }

  /** `responseCount(response)`: walks back through the prior responses, counting the response
      itself and at most three before it. */
  method ResponseCount(response: Response) returns (result: int)
    ensures result == Min(1 + PriorCount(response), 4)
  {
    var current := response;
    result := 1;
    while result <= 3
      invariant 1 <= result <= 4
      invariant PriorCount(response) == (result - 1) + PriorCount(current)
      decreases 4 - result
    {
      var prior := current.priorResponse;
      if prior.None? {
        break;
      }
      current := prior.value;
      result := result + 1;
    }
  }

  /** The retry bound `authenticate` tests: at least two responses counted exactly when the
      response has a prior response, i.e. the request has already been retried once. */
  lemma RetriedOnceIffPrior(response: Response)
    ensures Min(1 + PriorCount(response), 4) >= 2 <==> response.priorResponse.Some?
  {
  }

  /** What `authenticate` returns: the request to retry with, null, or an IOException. */
  datatype Decision = Retry(request: Request) | GiveUp | Rethrow(message: string)

  /** The load condition: no cached token, no `Authorization` header on the request that was
      answered, or a 401. */
  predicate NeedsLoad(cached: Option<string>, response: Response) {
    cached.None? || HeaderValue(response.request.headers, AUTHORIZATION).None? || response.code == 401
  }

  /** The original request with its `Authorization` header replaced by the bearer token, or null
      when there is no token. */
  function WithToken(request: Request, token: Option<string>): Decision {
    if token.Some? then Retry(request.(headers := SetHeader(request.headers, AUTHORIZATION, Bearer(token.value))))
    else GiveUp
  }

  /** The decision, whether the token was loaded, and the token cell afterwards. */
  datatype Authentication = Authentication(decision: Decision, loaded: bool, token: Option<string>)

  /** `authenticate(route, response)` as a value, given the cached token and the result a load
      would have (the token, or the AuthRequestException's message). */
  function Decide(response: Response, cached: Option<string>, load: Result<string, string>): Authentication {
    if Min(1 + PriorCount(response), 4) >= 2 then Authentication(GiveUp, false, cached)
    else if NeedsLoad(cached, response) then
      match load
      case Failure(message) => Authentication(Rethrow(message), true, cached)
      case Success(token) => Authentication(WithToken(response.request, Some(token)), true, Some(token))
    else Authentication(WithToken(response.request, cached), false, cached)
  }

  /** At most one retry: a response that already has a prior response gets null, and no token
      is loaded for it. */
  lemma BoundedRetry(response: Response, cached: Option<string>, load: Result<string, string>)
    requires response.priorResponse.Some?
    ensures Decide(response, cached, load) == Authentication(GiveUp, false, cached)
  {
    RetriedOnceIffPrior(response);
  }

  /** On a first challenge the token is loaded exactly when the load condition holds. */
  lemma LoadsIffNeeded(response: Response, cached: Option<string>, load: Result<string, string>)
    requires response.priorResponse.None?
    ensures Decide(response, cached, load).loaded <==> NeedsLoad(cached, response)
  {
    RetriedOnceIffPrior(response);
  }

  /** A failed load is rethrown with the same message and nothing is retried. */
  lemma LoadFailureRethrown(response: Response, cached: Option<string>, message: string)
    requires response.priorResponse.None? && NeedsLoad(cached, response)
    ensures Decide(response, cached, Failure(message)) == Authentication(Rethrow(message), true, cached)
  {
    RetriedOnceIffPrior(response);
  }

  /** A retried request is the original with exactly one `Authorization` header, carrying the
      token the cell holds afterwards; its other headers, method, URL and body are unchanged. */
  lemma RetryCarriesBearer(response: Response, cached: Option<string>, load: Result<string, string>)
    requires Decide(response, cached, load).decision.Retry?
    ensures var a := Decide(response, cached, load);
      var retried := a.decision.request;
      var original := response.request;
      && a.token.Some?
      && Named(retried.headers, AUTHORIZATION) == [Pair(AUTHORIZATION, Bearer(a.token.value))]
      && HeaderValue(retried.headers, AUTHORIZATION) == Some(Bearer(a.token.value))
      && Unnamed(retried.headers, AUTHORIZATION) == Unnamed(original.headers, AUTHORIZATION)
      && retried.verb == original.verb && retried.url == original.url && retried.body == original.body
  {
    var a := Decide(response, cached, load);
    SetHeaderEffect(response.request.headers, AUTHORIZATION, Bearer(a.token.value), AUTHORIZATION);
  }

  /** A non-401 answer to a request that carried a header, with a token cached: the cached
      token is reused and nothing is loaded. */
  lemma CachedTokenReused(response: Response, token: string, load: Result<string, string>)
    requires response.priorResponse.None? && response.code != 401
    requires HeaderValue(response.request.headers, AUTHORIZATION).Some?
    ensures Decide(response, Some(token), load)
         == Authentication(WithToken(response.request, Some(token)), false, Some(token))
  {
    RetriedOnceIffPrior(response);
  }

  /** A first 401 with a load that yields a token: the request is retried with that token. */
  lemma SuccessAfterTokenLoad(response: Response, cached: Option<string>, token: string)
    requires response.priorResponse.None? && response.code == 401
    ensures Decide(response, cached, Success(token)).decision.Retry?
    ensures HeaderValue(Decide(response, cached, Success(token)).decision.request.headers, AUTHORIZATION)
         == Some("Bearer " + token)
  {
    RetryCarriesBearer(response, cached, Success(token));
  }

  class ClientCredentialsAuthenticator {
    const tokenProvider: TokenProvider.AccessTokenProvider

    constructor (tokenProvider: TokenProvider.AccessTokenProvider)
      ensures this.tokenProvider == tokenProvider
    {
      this.tokenProvider := tokenProvider;
    }

    /** `authenticate(route, response)`; `w` is what a token load would consult. */
    method Authenticate(response: Response, w: TokenProvider.TokenWorld) returns (decision: Decision)
      modifies tokenProvider
      ensures var a := Decide(response, old(tokenProvider.accessToken),
                              TokenProvider.Acquire(w, tokenProvider.proxyProvider).result);
        && decision == a.decision
        && tokenProvider.accessToken == a.token
        && tokenProvider.loads == old(tokenProvider.loads) + (if a.loaded then 1 else 0)
    {
      var count := ResponseCount(response);
      if count >= 2 {
        return GiveUp;
      }
      if tokenProvider.GetAccessToken().None?
         || HeaderValue(response.request.headers, AUTHORIZATION).None?
         || response.code == 401
      {
        var failure;
        ghost var sent;
        failure, sent := tokenProvider.LoadAuthenticationToken(w);
        if failure.Some? {
          return Rethrow(failure.value);
        }
      }
      var token := tokenProvider.GetAccessToken();
      if token.Some? {
        decision := Retry(response.request.(headers := SetHeader(response.request.headers, AUTHORIZATION,
                                                                 Bearer(token.value))));
      } else {
        decision := GiveUp;
      }
    }
  }
}

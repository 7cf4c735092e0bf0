/** `PreemptiveAuthInterceptor`: attaches the client-credentials bearer token to a request that
    has no `Authorization` header before it is sent, loading the token first if none is cached. */
module Preemptive {
  import opened Wrappers
  import opened Http
  import TokenProvider

  /** What `intercept` does before proceeding: the request it forwards or the message of the
      IOException it throws instead, whether it loaded the token, and the token cell afterwards. */
  datatype Preemption = Preemption(outcome: Result<Request, string>, loaded: bool, token: Option<string>)

  function Attached(request: Request, token: Option<string>): Request {
    if token.Some? then request.(headers := AddHeader(request.headers, AUTHORIZATION, Bearer(token.value)))
    else request
  }

  /** `intercept(chain)` up to `chain.proceed`, as a value, given the cached token and the result
      a load would have (the token, or the AuthRequestException's message). */
  function Preempt(request: Request, cached: Option<string>, load: Result<string, string>): Preemption {
    if HeaderValue(request.headers, AUTHORIZATION).Some? then Preemption(Success(request), false, cached)
    else if cached.None? then
      match load
      case Failure(message) => Preemption(Failure(message), true, cached)
      case Success(token) => Preemption(Success(Attached(request, Some(token))), true, Some(token))
    else Preemption(Success(Attached(request, cached)), false, cached)
  }

  /** A request that already carries an `Authorization` header is forwarded unchanged and no
      token is loaded. */
  lemma HeaderPresentForwardedUnchanged(request: Request, cached: Option<string>, load: Result<string, string>)
    requires Named(request.headers, AUTHORIZATION) != []
    ensures Preempt(request, cached, load) == Preemption(Success(request), false, cached)
  {
    HeaderValueAbsent(request.headers, AUTHORIZATION);
  }

  /** The token is loaded exactly when the request has no `Authorization` header and no token is
      cached. */
  lemma LoadsIffNoHeaderAndNoToken(request: Request, cached: Option<string>, load: Result<string, string>)
    ensures Preempt(request, cached, load).loaded
        <==> Named(request.headers, AUTHORIZATION) == [] && cached.None?
  {
    HeaderValueAbsent(request.headers, AUTHORIZATION);
  }

  /** Without an `Authorization` header, the forwarded request is the original with one
      `Authorization: Bearer <token>` appended, where the token is the one the cell holds. */
  lemma BearerAppended(request: Request, cached: Option<string>, load: Result<string, string>)
    requires Named(request.headers, AUTHORIZATION) == []
    requires Preempt(request, cached, load).outcome.Success?
    ensures var p := Preempt(request, cached, load);
      && p.token.Some?
      && p.outcome.value == request.(headers := request.headers + [Pair(AUTHORIZATION, Bearer(p.token.value))])
      && Named(p.outcome.value.headers, AUTHORIZATION) == [Pair(AUTHORIZATION, Bearer(p.token.value))]
  {
    HeaderValueAbsent(request.headers, AUTHORIZATION);
    var p := Preempt(request, cached, load);
    NamedAppend(request.headers, [Pair(AUTHORIZATION, Bearer(p.token.value))], AUTHORIZATION);
    assert SameName(AUTHORIZATION, AUTHORIZATION);
  }

  /** A failed load aborts the call with the same message; nothing is forwarded. */
  lemma LoadFailureAborts(request: Request, message: string)
    requires Named(request.headers, AUTHORIZATION) == []
    ensures Preempt(request, None, Failure(message)) == Preemption(Failure(message), true, None)
  {
    HeaderValueAbsent(request.headers, AUTHORIZATION);
  }

  class PreemptiveAuthInterceptor {
    const tokenProvider: TokenProvider.AccessTokenProvider

    constructor (tokenProvider: TokenProvider.AccessTokenProvider)
      ensures this.tokenProvider == tokenProvider
    {
      this.tokenProvider := tokenProvider;
    }

    /** `intercept(chain)`: `proceed` is the rest of the chain; `forwarded` is what it was given,
        `None` when it was never called. */
    method Intercept(request: Request, w: TokenProvider.TokenWorld, proceed: Request -> Exchange)
      returns (result: Exchange, ghost forwarded: Option<Request>)
      modifies tokenProvider
      ensures var p := Preempt(request, old(tokenProvider.accessToken),
                               TokenProvider.Acquire(w, tokenProvider.proxyProvider).result);
        && tokenProvider.accessToken == p.token
        && tokenProvider.loads == old(tokenProvider.loads) + (if p.loaded then 1 else 0)
        && match p.outcome
           case Success(sent) => forwarded == Some(sent) && result == proceed(sent)
           case Failure(message) => forwarded.None? && result == IOFailure(message, AuthCause(message))
    {
      var current := request;
      if HeaderValue(current.headers, AUTHORIZATION).None? {
        if tokenProvider.GetAccessToken().None? {
          var failure;
          ghost var sent;
          failure, sent := tokenProvider.LoadAuthenticationToken(w);
          if failure.Some? {
            result, forwarded := IOFailure(failure.value, AuthCause(failure.value)), None;
            return;
          }
        }
        var token := tokenProvider.GetAccessToken();
        if token.Some? {
          current := current.(headers := AddHeader(current.headers, AUTHORIZATION, Bearer(token.value)));
        }
      }
      forwarded := Some(current);
      result := proceed(current);
    }
  }
}

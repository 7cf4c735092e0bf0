/** `CustomAIService`: builds the HTTP client of an OpenAI-compatible service (proxy, the
    authentication mode, extra headers and query parameters) and reduces a moderation response
    to one flag. */
module Service {
  import opened Wrappers
  import opened Http
  import JavaText
  import ServiceUtil
  import TokenProvider
  import Preemptive
  import ClientCredentials
  import HeadersQuery

  /** What a `CustomAiServiceConfigSupplier` answers; `None` stands for null. */
  datatype ConfigSupplier = ConfigSupplier(baseUrl: string, apiKey: Option<string>,
                                           headers: Option<seq<Pair>>, queryParams: Option<seq<Pair>>,
                                           moderationEnabled: bool)

  /** The static-key mode condition: a key that is non-null, not blank and not the text "null". */
  predicate IsStaticKey(token: Option<string>) {
    token.Some? && !JavaText.IsBlank(token.value) && token.value != "null"
  }

  /** The static-key interceptor's rewrite: one more `Authorization: Bearer <key>` header. */
  function WithStaticKey(request: Request, key: string): (r: Request)
    ensures HeaderValue(r.headers, AUTHORIZATION) == Some(Bearer(key))
    ensures |r.headers| == |request.headers| + 1 && r.headers[..|request.headers|] == request.headers
    ensures r.verb == request.verb && r.url == request.url && r.body == request.body
  {
    var r := request.(headers := AddHeader(request.headers, AUTHORIZATION, Bearer(key)));
    AddHeaderEffect(request.headers, AUTHORIZATION, Bearer(key));
    r
  }

  /** The application interceptors the client can hold. */
  datatype Interceptor =
    | StaticKeyAuth(key: string)
    | PreemptiveAuth(preemptive: Preemptive.PreemptiveAuthInterceptor)
    | HeadersAndQuery(extra: HeadersQuery.HeadersQueryInterceptor)
    | RequestLogging

  datatype Authenticator =
    | NoAuthenticator
    | ClientCredentialsAuth(reactive: ClientCredentials.ClientCredentialsAuthenticator)

  /** The parts of the built `OkHttpClient` the connector decides. */
  datatype ServiceClient = ServiceClient(proxy: Option<Proxy>, interceptors: seq<Interceptor>,
                                         authenticator: Authenticator, readTimeout: int)

  /** Whether `HeadersQueryInterceptor` is installed: the headers or the query list is non-null. */
  predicate HasExtras(config: ConfigSupplier) {
    config.headers.Some? || config.queryParams.Some?
  }

  /** `createServiceHttpClient(configSupplier)`. `loggingEnabled` is whether debug logging is on. */
  method CreateServiceHttpClient(config: ConfigSupplier, proxyProvider: ProxyProvider, resolve: Resolver,
                                 timeout: int, loggingEnabled: bool)
    returns (client: ServiceClient)
    ensures client.proxy == ServiceUtil.ProxyFor(config.baseUrl, proxyProvider, resolve)
    ensures client.readTimeout == timeout
    ensures |client.interceptors| == 1 + (if HasExtras(config) then 1 else 0) + (if loggingEnabled then 1 else 0)
    ensures IsStaticKey(config.apiKey)
        ==> client.interceptors[0] == StaticKeyAuth(config.apiKey.value) && client.authenticator == NoAuthenticator
    ensures !IsStaticKey(config.apiKey)
        ==> && client.interceptors[0].PreemptiveAuth?
            && client.authenticator.ClientCredentialsAuth?
            && fresh(client.interceptors[0].preemptive) && fresh(client.authenticator.reactive)
            && var shared := client.interceptors[0].preemptive.tokenProvider;
               && shared == client.authenticator.reactive.tokenProvider
               && fresh(shared) && shared.accessToken == None && shared.proxyProvider == proxyProvider
    ensures HasExtras(config)
        ==> && client.interceptors[1].HeadersAndQuery?
            && fresh(client.interceptors[1].extra)
            && HeadersQuery.Configured(client.interceptors[1].extra.headersSupplier) == config.headers.GetOr([])
            && HeadersQuery.Configured(client.interceptors[1].extra.queryParamsSupplier) == config.queryParams.GetOr([])
    ensures forall i :: 0 <= i < |client.interceptors| ==> client.interceptors[i].HeadersAndQuery? ==> i == 1 && HasExtras(config)
    ensures loggingEnabled ==> client.interceptors[|client.interceptors| - 1] == RequestLogging
    ensures forall i :: 1 <= i < |client.interceptors| ==> !client.interceptors[i].StaticKeyAuth? && !client.interceptors[i].PreemptiveAuth?
  {
    var builder := ServiceUtil.ConfigureProxy(ClientBuilder(None), config.baseUrl, proxyProvider, resolve);
    var interceptors: seq<Interceptor> := [];
    var authenticator := NoAuthenticator;
    var token := config.apiKey;
    if token.Some? && !JavaText.IsBlank(token.value) && token.value != "null" {
      interceptors := interceptors + [StaticKeyAuth(token.value)];
    } else {
      var accessTokenProvider := new TokenProvider.AccessTokenProvider(proxyProvider);
      var preemptive := new Preemptive.PreemptiveAuthInterceptor(accessTokenProvider);
      interceptors := interceptors + [PreemptiveAuth(preemptive)];
      var reactive := new ClientCredentials.ClientCredentialsAuthenticator(accessTokenProvider);
      authenticator := ClientCredentialsAuth(reactive);
    }
    if config.headers.Some? || config.queryParams.Some? {
      var extra := new HeadersQuery.HeadersQueryInterceptor(Some(HeadersQuery.PairsSupplier(() => config.headers)),
                                                            Some(HeadersQuery.PairsSupplier(() => config.queryParams)));
      interceptors := interceptors + [HeadersAndQuery(extra)];
    }
    if loggingEnabled {
      interceptors := interceptors + [RequestLogging];
    }
    client := ServiceClient(builder.proxy, interceptors, authenticator, timeout);
  }

  /** In static-key mode every request gets the bearer header for the key. */
  lemma StaticKeyAuthorizes(config: ConfigSupplier, request: Request)
    requires IsStaticKey(config.apiKey)
    ensures HeaderValue(WithStaticKey(request, config.apiKey.value).headers, AUTHORIZATION)
         == Some("Bearer " + config.apiKey.value)
  {
  }

  /** A key that is blank or reads "null" (what an absent parameter becomes) selects OAuth. */
  lemma NullOrBlankKeySelectsOAuth(key: string)
    requires key == "null" || JavaText.IsBlank(key)
    ensures !IsStaticKey(Some(key))
  {
  }

  // ---------------------------------------------------------------------------
  // Moderation
  // ---------------------------------------------------------------------------

  datatype Moderation = Moderation(flagged: bool)

  /** A `ModerationResult`: its results list, null when absent. */
  datatype ModerationResult = ModerationResult(results: Option<seq<Moderation>>)

  /** Why `applyModeration` throws: the call failed, or the call's body was null (a
      NullPointerException on `getResults`). */
  datatype ModerationFailure = CallFailed(error: ServiceUtil.CallException) | NullModerationBody

  /** At least one result is flagged. */
  predicate AnyFlagged(results: Option<seq<Moderation>>) {
    results.Some? && exists i :: 0 <= i < |results.value| && results.value[i].flagged
  }

  /** The OR of the flags, left to right. */
  function FlagsOr(results: seq<Moderation>): bool {
    if results == [] then false else results[0].flagged || FlagsOr(results[1..])
  }

  /** The short-circuit loop computes the OR over the whole list. */
  lemma {:induction false} FlagsOrIsAnyFlagged(results: seq<Moderation>)
    ensures FlagsOr(results) <==> AnyFlagged(Some(results))
  {
    if results != [] {
      FlagsOrIsAnyFlagged(results[1..]);
      if AnyFlagged(Some(results[1..])) {
        var i :| 0 <= i < |results[1..]| && results[1..][i].flagged;
        assert results[i + 1].flagged;
      }
      if AnyFlagged(Some(results)) && !results[0].flagged {
        var i :| 0 <= i < |results| && results[i].flagged;
        assert results[1..][i - 1].flagged;
      }
    }
  }

  /** The number of results the loop looks at: up to and including the first flagged one. */
  function Examined(results: seq<Moderation>): (n: nat)
    ensures n <= |results|
    ensures forall j :: 0 <= j < n - 1 ==> !results[j].flagged
    ensures n < |results| ==> n > 0 && results[n - 1].flagged
    ensures n == |results| && n > 0 ==> (results[n - 1].flagged || forall j :: 0 <= j < n ==> !results[j].flagged)
  {
    if results == [] then 0 else if results[0].flagged then 1 else 1 + Examined(results[1..])
  }

  /** The result `applyModeration` arrives at for a call outcome. */
  function ModerationOutcome(reply: ServiceUtil.CallReply<ModerationResult>, parseError: ServiceUtil.ErrorParser)
    : Result<bool, ModerationFailure>
  {
    match ServiceUtil.Execute(reply, parseError)
    case Failure(error) => Failure(CallFailed(error))
    case Success(body) =>
      if body.None? then Failure(NullModerationBody) else Success(AnyFlagged(body.value.results))
  }

  /** The two examples: one flagged among two results is flagged; no results is not. */
  lemma ModerationExamples()
    ensures AnyFlagged(Some([Moderation(false), Moderation(true)]))
    ensures !AnyFlagged(Some([])) && !AnyFlagged(None)
  {
    assert [Moderation(false), Moderation(true)][1].flagged;
  }

  class CustomAIService {
    const shouldApplyModeration: bool
    const proxyProvider: ProxyProvider
    const timeout: int
    const client: ServiceClient

    /** The constructor; the Retrofit API built over `client` is not part of this model. */
    constructor (config: ConfigSupplier, proxyProvider: ProxyProvider, timeout: int, resolve: Resolver,
                 loggingEnabled: bool)
      ensures shouldApplyModeration == config.moderationEnabled
      ensures this.proxyProvider == proxyProvider && this.timeout == timeout
      ensures client.proxy == ServiceUtil.ProxyFor(config.baseUrl, proxyProvider, resolve)
      ensures |client.interceptors| > 0 && (IsStaticKey(config.apiKey) <==> client.interceptors[0].StaticKeyAuth?)
    {
      this.proxyProvider := proxyProvider;
      this.timeout := timeout;
      shouldApplyModeration := config.moderationEnabled;
      var built := CreateServiceHttpClient(config, proxyProvider, resolve, timeout, loggingEnabled);
      client := built;
    }

    /** `isRequiringApplyingModeration()`: the flag read once at construction. */
    function IsRequiringApplyingModeration(): bool {
      shouldApplyModeration
    }

    /** `applyModeration(request)`; `reply` is what the moderation call produced. `examined` is
        the number of results the loop looked at. */
    method ApplyModeration(reply: ServiceUtil.CallReply<ModerationResult>, parseError: ServiceUtil.ErrorParser)
      returns (outcome: Result<bool, ModerationFailure>, ghost examined: nat)
      ensures outcome == ModerationOutcome(reply, parseError)
      ensures outcome.Success? && ServiceUtil.Execute(reply, parseError).value.value.results.Some?
          ==> examined == Examined(ServiceUtil.Execute(reply, parseError).value.value.results.value)
    {
      examined := 0;
      var isFlagged := false;
      var executed := ServiceUtil.Execute(reply, parseError);
      if executed.Failure? {
        return Failure(CallFailed(executed.error)), examined;
      }
      if executed.value.None? {
        return Failure(NullModerationBody), examined;
      }
      var results := executed.value.value.results;
      if results.Some? {
        var list := results.value;
        var i := 0;
        while i < |list|
          invariant 0 <= i <= |list|
          invariant !isFlagged
          invariant forall j :: 0 <= j < i ==> !list[j].flagged
          invariant Examined(list) == i + Examined(list[i..])
        {
          if list[i].flagged {
            isFlagged := true;
            break;
          }
          assert list[i..][1..] == list[i + 1..];
          i := i + 1;
        }
        examined := i + (if isFlagged then 1 else 0);
      }
      outcome := Success(isFlagged);
    }
  }
}

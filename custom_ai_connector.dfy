/** `CustomAIConnector`: the connector's resolved parameters become the service configuration,
    and a completion request is adjusted (streaming switched off when disallowed, a default model)
    before it is sent. */
module Connector {
  import opened Wrappers
  import opened Http
  import JavaText
  import Service

  // Parameter identifiers.
  const AI_KEY_PARAM_ID: string := "ai_key_param"
  const BASE_URL_PARAM_ID: string := "base_URL_param"
  const EXTRA_HEADERS_PARAM_ID: string := "extra_headers_param"
  const EXTRA_QUERY_PARAM_ID: string := "extra_query_params"
  const MODEL_PARAM_ID: string := "model_param"
  const ENABLE_TEXT_MODERATION_PARAM_AI: string := "enable_text_moderation_param"
  const ALLOW_STREAMING_PARAM_ID: string := "allow_streaming_param"

  /** The model used when neither the request nor the parameters name one. */
  const DEFAULT_MODEL: string := "gpt-4o"

  /** A resolved parameter value: a text field, a check box, or a key-value table (with the text
      `String.valueOf` would give for it). */
  datatype Value = Text(text: string) | Flag(flag: bool) | PairList(pairs: seq<Pair>, shown: string)

  /** The connector's resolved parameters; a missing key reads as null. */
  type Parameters = map<string, Value>

  function Lookup(params: Parameters, id: string): (v: Option<Value>)
    ensures v.Some? <==> id in params
    ensures v.Some? ==> v.value == params[id]
  {
    if id in params then Some(params[id]) else None
  }

  /** `String.valueOf(Object)`: null becomes the text "null". */
  function ValueOf(v: Option<Value>): (s: string)
    ensures v.None? ==> s == "null"
    ensures v.Some? && v.value.Text? ==> s == v.value.text
    ensures v.Some? && v.value.Flag? ==> (JavaText.ParseBoolean(s) <==> v.value.flag)
  {
    match v
    case None => "null"
    case Some(Text(text)) => text
    case Some(Flag(flag)) =>
      if flag then "true" else "false"
    case Some(PairList(_, shown)) => shown
  }

  /** The `(List<Pair<String, String>>)` cast of a key-value table parameter. */
  function PairsOf(v: Option<Value>): (r: Option<seq<Pair>>)
    ensures r.Some? <==> v.Some? && v.value.PairList?
    ensures r.Some? ==> r.value == v.value.pairs
  {
    if v.Some? && v.value.PairList? then Some(v.value.pairs) else None
  }

  /** `Boolean.parseBoolean(String.valueOf(...))` of a parameter. */
  predicate IsEnabled(params: Parameters, id: string) {
    JavaText.ParseBoolean(ValueOf(Lookup(params, id)))
  }

  /** The anonymous `CustomAiServiceConfigSupplier` built by `createAIService`. */
  function ConfigFor(params: Parameters): (config: Service.ConfigSupplier)
    ensures config.baseUrl == ValueOf(Lookup(params, BASE_URL_PARAM_ID))
    ensures config.apiKey == Some(ValueOf(Lookup(params, AI_KEY_PARAM_ID)))
    ensures config.headers == PairsOf(Lookup(params, EXTRA_HEADERS_PARAM_ID))
    ensures config.queryParams == PairsOf(Lookup(params, EXTRA_QUERY_PARAM_ID))
    ensures config.moderationEnabled == IsEnabled(params, ENABLE_TEXT_MODERATION_PARAM_AI)
  {
    Service.ConfigSupplier(ValueOf(Lookup(params, BASE_URL_PARAM_ID)),
                           Some(ValueOf(Lookup(params, AI_KEY_PARAM_ID))),
                           PairsOf(Lookup(params, EXTRA_HEADERS_PARAM_ID)),
                           PairsOf(Lookup(params, EXTRA_QUERY_PARAM_ID)),
                           IsEnabled(params, ENABLE_TEXT_MODERATION_PARAM_AI))
  }

  /** Without an API key parameter the key reads "null", which selects OAuth client credentials. */
  lemma MissingKeySelectsOAuth(params: Parameters)
    requires AI_KEY_PARAM_ID !in params
    ensures !Service.IsStaticKey(ConfigFor(params).apiKey)
  {
    Service.NullOrBlankKeySelectsOAuth(ValueOf(Lookup(params, AI_KEY_PARAM_ID)));
  }

  /** A check box drives moderation directly; without the parameter moderation is off. */
  lemma ModerationFlag(params: Parameters)
    ensures ENABLE_TEXT_MODERATION_PARAM_AI in params && params[ENABLE_TEXT_MODERATION_PARAM_AI].Flag?
        ==> ConfigFor(params).moderationEnabled == params[ENABLE_TEXT_MODERATION_PARAM_AI].flag
    ensures ENABLE_TEXT_MODERATION_PARAM_AI !in params ==> !ConfigFor(params).moderationEnabled
  {
    if ENABLE_TEXT_MODERATION_PARAM_AI !in params {
      assert !JavaText.ParseBoolean("null");
    }
  }

  /** The extras stage is installed exactly when a headers or a query-parameters table is set. */
  lemma ExtrasIffTables(params: Parameters)
    ensures Service.HasExtras(ConfigFor(params))
        <==> ((EXTRA_HEADERS_PARAM_ID in params && params[EXTRA_HEADERS_PARAM_ID].PairList?)
              || (EXTRA_QUERY_PARAM_ID in params && params[EXTRA_QUERY_PARAM_ID].PairList?))
  {
  }

  /** The stream flag after `configureCompletionRequest`. */
  function StreamSetting(stream: Option<bool>, streamingAllowed: bool): (r: Option<bool>)
    ensures r.None? <==> stream.None?
    ensures r == Some(true) ==> stream == Some(true) && streamingAllowed
    ensures r != stream <==> stream == Some(true) && !streamingAllowed
  {
    if stream.Some? && stream.value && !streamingAllowed then Some(false) else stream
  }

  /** The model after `configureCompletionRequest`. */
  function ModelSetting(model: Option<string>, configured: Option<Value>): (r: string)
    ensures model.Some? ==> r == model.value
    ensures model.None? && configured.Some? && ValueOf(configured) != "" ==> r == ValueOf(configured)
    ensures model.None? && (configured.None? || ValueOf(configured) == "") ==> r == DEFAULT_MODEL
  {
    if model.Some? then model.value
    else if configured.Some? && ValueOf(configured) != "" then ValueOf(configured)
    else DEFAULT_MODEL
  }

  /** The request adjustment never leaves the model unset and never names an empty model, unless
      the request already did. */
  lemma ModelNeverEmpty(model: Option<string>, configured: Option<Value>)
    requires model.None? || model.value != ""
    ensures ModelSetting(model, configured) != ""
  {
  }

  /** An OpenAI `CompletionRequest`, as far as this connector touches it. */
  class CompletionRequest {
    var stream: Option<bool>
    var model: Option<string>

    constructor (stream: Option<bool>, model: Option<string>)
      ensures this.stream == stream && this.model == model
    {
      this.stream := stream;
      this.model := model;
    }
  }

  class CustomAIConnector {
    const resolvedParameters: Parameters

    constructor (resolvedParameters: Parameters)
      ensures this.resolvedParameters == resolvedParameters
    {
      this.resolvedParameters := resolvedParameters;
    }

    /** `createAIService(proxyProvider, timeout)`. */
    method CreateAIService(proxyProvider: ProxyProvider, timeout: int, resolve: Resolver, loggingEnabled: bool)
      returns (service: Service.CustomAIService)
      ensures fresh(service)
      ensures service.shouldApplyModeration == IsEnabled(resolvedParameters, ENABLE_TEXT_MODERATION_PARAM_AI)
      ensures service.proxyProvider == proxyProvider && service.timeout == timeout
      ensures |service.client.interceptors| > 0
      ensures service.client.interceptors[0].StaticKeyAuth?
          <==> Service.IsStaticKey(Some(ValueOf(Lookup(resolvedParameters, AI_KEY_PARAM_ID))))
    {
      service := new Service.CustomAIService(ConfigFor(resolvedParameters), proxyProvider, timeout, resolve,
                                             loggingEnabled);
    }

    /** `configureCompletionRequest(request)`; the base-class adjustment is not part of this model. */
    method ConfigureCompletionRequest(request: CompletionRequest) returns (configured: CompletionRequest)
      modifies request
      ensures configured == request
      ensures request.stream == StreamSetting(old(request.stream), IsEnabled(resolvedParameters, ALLOW_STREAMING_PARAM_ID))
      ensures request.model == Some(ModelSetting(old(request.model), Lookup(resolvedParameters, MODEL_PARAM_ID)))
    {
      var isStreamingAllowed := JavaText.ParseBoolean(ValueOf(Lookup(resolvedParameters, ALLOW_STREAMING_PARAM_ID)));
      if request.stream.Some? && request.stream.value && !isStreamingAllowed {
        request.stream := Some(false);
      }
      if request.model.None? {
        var model := Lookup(resolvedParameters, MODEL_PARAM_ID);
        if model.Some? && ValueOf(model) != "" {
          request.model := Some(ValueOf(model));
        } else {
          request.model := Some(DEFAULT_MODEL);
        }
      }
      configured := request;
    }
  }
}

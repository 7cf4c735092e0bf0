/** `AccessTokenProvider`: the single mutable token cell shared by the preemptive interceptor and
    the authenticator, and the OAuth 2.0 client-credentials grant (section 4.4 of RFC 6749) that
    fills it. The environment, DNS, the token endpoint and the JSON reader are inputs. */
module TokenProvider {
  import opened Wrappers
  import opened Http
  import JavaText
  import ServiceUtil

  const CLIENT_ID: string := "POSITRON_CONNECTOR_AUTH_CLIENT_ID"
  const CLIENT_SECRET: string := "POSITRON_CONNECTOR_AUTH_CLIENT_SECRET"
  const AUTH_DOMAIN: string := "POSITRON_CONNECTOR_AUTH_DOMAIN"
  const AUTH_TOKEN_URL: string := "POSITRON_CONNECTOR_AUTH_TOKEN_URL"
  const AUTH_SCOPE: string := "POSITRON_CONNECTOR_AUTH_SCOPE"
  const AUTH_AUDIENCE: string := "POSITRON_CONNECTOR_AUTH_AUDIENCE"
  const AUTH_ORGANIZATION: string := "POSITRON_CONNECTOR_AUTH_ORGANIZATION"

  const NOT_CONFIGURED: string := "API Key or OAuth Client Credentials Flow is not configured. Missing: "
  const AUTH_FAILED: string := "Auth request failed with status: "
  const FORM_CONTENT_TYPE: string := "application/x-www-form-urlencoded"

  // ---------------------------------------------------------------------------
  // Configuration
  // ---------------------------------------------------------------------------

  /** The process environment and the JVM system properties. */
  datatype Environment = Environment(variables: map<string, string>, properties: map<string, string>)

  /** `getProperty(name)`: the environment variable, else the system property, else null. */
  function GetProperty(env: Environment, name: string): (r: Option<string>)
    ensures r.Some? <==> name in env.variables || name in env.properties
    ensures name in env.variables ==> r == Some(env.variables[name])
    ensures name !in env.variables && name in env.properties ==> r == Some(env.properties[name])
  {
    if name in env.variables then Some(env.variables[name])
    else if name in env.properties then Some(env.properties[name])
    else None
  }

  /** The settings `loadAuthenticationToken` reads. */
  datatype AuthSettings = AuthSettings(domain: Option<string>, tokenUrl: Option<string>,
                                       clientId: Option<string>, clientSecret: Option<string>,
                                       audience: Option<string>, organization: Option<string>,
                                       scope: Option<string>)

  function ReadSettings(env: Environment): AuthSettings {
    AuthSettings(GetProperty(env, AUTH_DOMAIN), GetProperty(env, AUTH_TOKEN_URL),
                 GetProperty(env, CLIENT_ID), GetProperty(env, CLIENT_SECRET),
                 GetProperty(env, AUTH_AUDIENCE), GetProperty(env, AUTH_ORGANIZATION),
                 GetProperty(env, AUTH_SCOPE))
  }

  /** The parameter the validation reports as missing: the first of the endpoint (token URL or
      domain), the client id and the client secret that is unset. */
  function MissingParameter(s: AuthSettings): (r: Option<string>)
    ensures r.None? <==> (s.tokenUrl.Some? || s.domain.Some?) && s.clientId.Some? && s.clientSecret.Some?
    ensures r == Some(AUTH_TOKEN_URL + " or " + AUTH_DOMAIN) <==> s.tokenUrl.None? && s.domain.None?
    ensures r == Some(CLIENT_ID) <==> (s.tokenUrl.Some? || s.domain.Some?) && s.clientId.None?
    ensures r == Some(CLIENT_SECRET)
        <==> (s.tokenUrl.Some? || s.domain.Some?) && s.clientId.Some? && s.clientSecret.None?
  {
    if s.domain.None? && s.tokenUrl.None? then Some(AUTH_TOKEN_URL + " or " + AUTH_DOMAIN)
    else if s.clientId.None? then Some(CLIENT_ID)
    else if s.clientSecret.None? then Some(CLIENT_SECRET)
    else None
  }

  /** `getAuthRequestExceptionForMissingParameter(name)`'s message. */
  function MissingParameterMessage(name: string): string {
    NOT_CONFIGURED + name
  }

  /** The token endpoint: the token URL whenever it is set, else the domain's `/oauth/token`. */
  function RequestUrl(s: AuthSettings): (url: string)
    requires s.tokenUrl.Some? || s.domain.Some?
    ensures s.tokenUrl.Some? ==> url == s.tokenUrl.value
    ensures s.tokenUrl.None? ==> url == "https://" + s.domain.value + "/oauth/token"
  {
    if s.tokenUrl.Some? then s.tokenUrl.value else "https://" + s.domain.value + "/oauth/token"
  }

  /** The optional form fields, in the order they are added: scope, audience, organization. */
  function OptionalFields(s: AuthSettings): seq<Pair> {
    (if s.scope.Some? then [Pair("scope", s.scope.value)] else [])
    + (if s.audience.Some? then [Pair("audience", s.audience.value)] else [])
    + (if s.organization.Some? then [Pair("organization", s.organization.value)] else [])
  }

  /** The form of the token request. */
  function TokenForm(s: AuthSettings): seq<Pair>
    requires s.clientId.Some? && s.clientSecret.Some?
  {
    [Pair("grant_type", "client_credentials"), Pair("client_id", s.clientId.value),
     Pair("client_secret", s.clientSecret.value)] + OptionalFields(s)
  }

  /** The value of the first field called `name`. */
  function FormValue(form: seq<Pair>, name: string): Option<string> {
    if form == [] then None
    else if form[0].first == name then Some(form[0].second)
    else FormValue(form[1..], name)
  }

  lemma {:induction false} FormValueAppend(a: seq<Pair>, b: seq<Pair>, name: string)
    ensures FormValue(a + b, name) == if FormValue(a, name).Some? then FormValue(a, name) else FormValue(b, name)
  {
    if a != [] {
      assert (a + b)[0] == a[0] && (a + b)[1..] == a[1..] + b;
      FormValueAppend(a[1..], b, name);
    } else {
      assert a + b == b;
    }
  }

  lemma {:induction false} FormValueAbsent(form: seq<Pair>, name: string)
    requires forall i :: 0 <= i < |form| ==> form[i].first != name
    ensures FormValue(form, name) == None
  {
    if form != [] {
      FormValueAbsent(form[1..], name);
    }
  }

  /** The form carries the grant type and the credentials first, then each optional setting
      exactly when it is set. */
  lemma TokenFormFields(s: AuthSettings)
    requires s.clientId.Some? && s.clientSecret.Some?
    ensures |TokenForm(s)| >= 3
    ensures TokenForm(s)[0] == Pair("grant_type", "client_credentials")
    ensures TokenForm(s)[1] == Pair("client_id", s.clientId.value)
    ensures TokenForm(s)[2] == Pair("client_secret", s.clientSecret.value)
    ensures FormValue(TokenForm(s), "scope") == s.scope
    ensures FormValue(TokenForm(s), "audience") == s.audience
    ensures FormValue(TokenForm(s), "organization") == s.organization
    ensures |TokenForm(s)| == 3 + (if s.scope.Some? then 1 else 0) + (if s.audience.Some? then 1 else 0)
                                + (if s.organization.Some? then 1 else 0)
  {
    var head := [Pair("grant_type", "client_credentials"), Pair("client_id", s.clientId.value),
                 Pair("client_secret", s.clientSecret.value)];
    var sc: seq<Pair> := if s.scope.Some? then [Pair("scope", s.scope.value)] else [];
    var au: seq<Pair> := if s.audience.Some? then [Pair("audience", s.audience.value)] else [];
    var org: seq<Pair> := if s.organization.Some? then [Pair("organization", s.organization.value)] else [];
    assert TokenForm(s) == head + (sc + (au + org));
    FormValueAbsent(head, "scope");
    FormValueAbsent(head, "audience");
    FormValueAbsent(head, "organization");
    forall name, p: Pair | p.first != name
      ensures FormValue([p], name) == None
    {
      FormValueAbsent([p], name);
    }
    forall p: Pair
      ensures FormValue([p], p.first) == Some(p.second)
    {
    }
    FormValueAppend(head, sc + (au + org), "scope");
    FormValueAppend(sc, au + org, "scope");
    FormValueAppend(au, org, "scope");
    FormValueAppend(head, sc + (au + org), "audience");
    FormValueAppend(sc, au + org, "audience");
    FormValueAppend(au, org, "audience");
    FormValueAppend(head, sc + (au + org), "organization");
    FormValueAppend(sc, au + org, "organization");
    FormValueAppend(au, org, "organization");
  }

  // ---------------------------------------------------------------------------
  // The token request and its outcome
  // ---------------------------------------------------------------------------

  /** The request as sent: the proxy of the client built for its URL, and the POST itself. */
  datatype TokenRequest = TokenRequest(proxy: Option<Proxy>, request: Request)

  /** What the token endpoint call produced: a response, or an IOException from the call or from
      reading the body. */
  datatype RawTokenReply =
    | TokenResponse(code: int, statusMessage: string, body: Option<string>)
    | TokenTransportFailure(message: string)

  /** The body of a response to a call OkHttp executed is never null when the status is 2xx. */
  type TokenReply = r: RawTokenReply | r.TokenResponse? && IsSuccessful(r.code) ==> r.body.Some?
    witness TokenTransportFailure("")

  /** Jackson's `readTree(text).path("access_token").asText()`: the field's text (the empty
      string when the field is absent), or the message of the JsonProcessingException. */
  datatype TokenJson = TokenText(text: string) | MalformedJson(message: string)

  /** Everything outside the JVM object that `loadAuthenticationToken` consults. */
  datatype TokenWorld = TokenWorld(env: Environment, resolve: Resolver,
                                   exchange: TokenRequest -> TokenReply, readToken: string -> TokenJson)

  /** The token's form POST to `url`. */
  function TokenHttpRequest(url: string, form: seq<Pair>): Request {
    Request("POST", Url(url, []), [Pair("content-type", FORM_CONTENT_TYPE)], FormBody(form))
  }

  /** The token, or the message of the AuthRequestException, a reply leads to. */
  function Answer(reply: TokenReply, readToken: string -> TokenJson): Result<string, string> {
    match reply
    case TokenTransportFailure(message) => Failure(message)
    case TokenResponse(code, statusMessage, body) =>
      if IsSuccessful(code) then
        match readToken(body.value)
        case TokenText(text) => Success(text)
        case MalformedJson(message) => Failure(message)
      else Failure(AUTH_FAILED + JavaText.IntToString(code) + "; message: "
                   + (if body.Some? then body.value else statusMessage))
  }

  /** One load: the request sent (none when the configuration is incomplete), and its result. */
  datatype Attempt = Attempt(sent: Option<TokenRequest>, result: Result<string, string>)

  /** What `loadAuthenticationToken` does, as a value. */
  function Acquire(w: TokenWorld, provider: ProxyProvider): Attempt {
    var s := ReadSettings(w.env);
    match MissingParameter(s)
    case Some(name) => Attempt(None, Failure(MissingParameterMessage(name)))
    case None =>
      var url := RequestUrl(s);
      var sent := TokenRequest(ServiceUtil.ProxyFor(url, provider, w.resolve), TokenHttpRequest(url, TokenForm(s)));
      Attempt(Some(sent), Answer(w.exchange(sent), w.readToken))
  }

  /** Incomplete configuration: the first missing parameter is reported and nothing is sent. */
  lemma IncompleteConfiguration(w: TokenWorld, provider: ProxyProvider)
    requires MissingParameter(ReadSettings(w.env)).Some?
    ensures Acquire(w, provider).sent.None?
    ensures Acquire(w, provider).result
         == Failure(NOT_CONFIGURED + MissingParameter(ReadSettings(w.env)).value)
  {
  }

  /** A complete configuration sends one POST of the token form to the chosen endpoint, through
      the proxy configured for that endpoint; a 2xx response yields the `access_token` text. */
  lemma CompleteConfiguration(w: TokenWorld, provider: ProxyProvider)
    requires MissingParameter(ReadSettings(w.env)).None?
    ensures var s := ReadSettings(w.env);
      var a := Acquire(w, provider);
      && a.sent.Some?
      && a.sent.value.request.verb == "POST"
      && a.sent.value.request.url == Url(RequestUrl(s), [])
      && a.sent.value.request.body == FormBody(TokenForm(s))
      && HeaderValue(a.sent.value.request.headers, "Content-Type") == Some(FORM_CONTENT_TYPE)
      && a.sent.value.proxy == ServiceUtil.ProxyFor(RequestUrl(s), provider, w.resolve)
      && (a.result.Success? <==>
           var reply := w.exchange(a.sent.value);
           reply.TokenResponse? && IsSuccessful(reply.code) && w.readToken(reply.body.value).TokenText?)
    ensures var a := Acquire(w, provider);
      a.sent.Some? &&
      var reply := w.exchange(a.sent.value);
      && (a.result.Success? ==> reply.TokenResponse? && a.result.value == w.readToken(reply.body.value).text)
      && (reply.TokenResponse? && !IsSuccessful(reply.code)
          ==> a.result == Failure(AUTH_FAILED + JavaText.IntToString(reply.code) + "; message: "
                                  + (if reply.body.Some? then reply.body.value else reply.statusMessage)))
      && (reply.TokenTransportFailure? ==> a.result == Failure(reply.message))
  {
    var hs := [Pair("content-type", FORM_CONTENT_TYPE)];
    assert SameName("content-type", "Content-Type");
    assert hs[..0] == [];
  }

  /** An endpoint but no client id: the client id is reported, whether or not the secret is
      set, and nothing is sent. */
  lemma MissingClientIdExample(w: TokenWorld, provider: ProxyProvider)
    requires GetProperty(w.env, AUTH_DOMAIN).Some? || GetProperty(w.env, AUTH_TOKEN_URL).Some?
    requires GetProperty(w.env, CLIENT_ID).None?
    ensures Acquire(w, provider).sent.None?
    ensures Acquire(w, provider).result
         == Failure("API Key or OAuth Client Credentials Flow is not configured. Missing: POSITRON_CONNECTOR_AUTH_CLIENT_ID")
  {
    ClientIdMessage();
  }

  lemma ClientIdMessage()
    ensures MissingParameterMessage(CLIENT_ID)
         == "API Key or OAuth Client Credentials Flow is not configured. Missing: POSITRON_CONNECTOR_AUTH_CLIENT_ID"
  {
  }

  /** A 400 with no body reports the status message. */
  lemma BadRequestExample(readToken: string -> TokenJson)
    ensures Answer(TokenResponse(400, "Bad Request", None), readToken)
         == Failure("Auth request failed with status: 400; message: Bad Request")
  {
    assert JavaText.IntToString(400) == "400" by {
      assert JavaText.NatToString(4) == "4";
      assert JavaText.NatToString(40) == "4" + "0";
      assert JavaText.NatToString(400) == "40" + "0";
    }
    assert AUTH_FAILED + "400" + "; message: " + "Bad Request"
        == "Auth request failed with status: 400; message: Bad Request";
  }

  // ---------------------------------------------------------------------------
  // The token cell
  // ---------------------------------------------------------------------------

  class AccessTokenProvider {
    var accessToken: Option<string>
    const proxyProvider: ProxyProvider
    /** How many times `loadAuthenticationToken` has run. */
    ghost var loads: nat

    constructor (proxyProvider: ProxyProvider)
      ensures accessToken == None && loads == 0 && this.proxyProvider == proxyProvider
    {
      accessToken := None;
      this.proxyProvider := proxyProvider;
      loads := 0;
    }

    function GetAccessToken(): Option<string>
      reads this
    {
      accessToken
    }

    /** `setAccessToken(token)`; `None` stands for null and clears the cell. */
    method SetAccessToken(token: Option<string>)
      modifies this
      ensures accessToken == token && loads == old(loads)
    {
      accessToken := token;
    }

    /** `loadAuthenticationToken()`: validates the configuration, calls the token endpoint and
        stores the token. `failure` is the message of the AuthRequestException it throws; on
        every failure the token is left as it was. */
    method LoadAuthenticationToken(w: TokenWorld) returns (failure: Option<string>, ghost sent: Option<TokenRequest>)
      modifies this
      ensures sent == Acquire(w, proxyProvider).sent
      ensures failure == match Acquire(w, proxyProvider).result
                         case Success(_) => None
                         case Failure(message) => Some(message)
      ensures accessToken == match Acquire(w, proxyProvider).result
                             case Success(token) => Some(token)
                             case Failure(_) => old(accessToken)
      ensures loads == old(loads) + 1
    {
      loads := loads + 1;
      sent := None;
      var authDomain := GetProperty(w.env, AUTH_DOMAIN);
      var accessTokenUrl := GetProperty(w.env, AUTH_TOKEN_URL);
      if authDomain.None? && accessTokenUrl.None? {
        failure := Some(MissingParameterMessage(AUTH_TOKEN_URL + " or " + AUTH_DOMAIN));
        return;
      }
      var clientId := GetProperty(w.env, CLIENT_ID);
      if clientId.None? {
        failure := Some(MissingParameterMessage(CLIENT_ID));
        return;
      }
      var clientSecret := GetProperty(w.env, CLIENT_SECRET);
      if clientSecret.None? {
        failure := Some(MissingParameterMessage(CLIENT_SECRET));
        return;
      }
      var audience := GetProperty(w.env, AUTH_AUDIENCE);
      var organization := GetProperty(w.env, AUTH_ORGANIZATION);
      var scope := GetProperty(w.env, AUTH_SCOPE);

      ghost var settings := ReadSettings(w.env);
      assert MissingParameter(settings).None?;
      var requestUrl: string;
      if accessTokenUrl.Some? {
        requestUrl := accessTokenUrl.value;
      } else {
        requestUrl := "https://" + authDomain.value + "/oauth/token";
      }
      assert requestUrl == RequestUrl(settings);
      var client := ServiceUtil.ConfigureProxy(ClientBuilder(None), requestUrl, proxyProvider, w.resolve);
      assert client.proxy == ServiceUtil.ProxyFor(requestUrl, proxyProvider, w.resolve);

      var form := [Pair("grant_type", "client_credentials"), Pair("client_id", clientId.value),
                   Pair("client_secret", clientSecret.value)];
      if scope.Some? {
        form := form + [Pair("scope", scope.value)];
      }
      if audience.Some? {
        form := form + [Pair("audience", audience.value)];
      }
      if organization.Some? {
        form := form + [Pair("organization", organization.value)];
      }
      var request := Request("POST", Url(requestUrl, []), [Pair("content-type", FORM_CONTENT_TYPE)], FormBody(form));
      var tokenRequest := TokenRequest(client.proxy, request);
      assert form == TokenForm(settings);
      assert Acquire(w, proxyProvider) == Attempt(Some(tokenRequest), Answer(w.exchange(tokenRequest), w.readToken));
      sent := Some(tokenRequest);

      var reply := w.exchange(tokenRequest);
      match reply {
        case TokenTransportFailure(message) =>
          failure := Some(message);
        case TokenResponse(code, statusMessage, body) =>
          if IsSuccessful(code) {
            match w.readToken(body.value) {
              case TokenText(text) =>
                SetAccessToken(Some(text));
                failure := None;
              case MalformedJson(message) =>
                failure := Some(message);
            }
          } else {
            var errorMessage := if body.Some? then body.value else statusMessage;
            failure := Some(AUTH_FAILED + JavaText.IntToString(code) + "; message: " + errorMessage);
          }
      }
    }
  }
}

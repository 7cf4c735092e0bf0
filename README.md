# Custom AI service connector, modelled in Dafny

This project models the logic of an Oxygen XML AI-Positron add-on that connects the editor to an
OpenAI-compatible chat-completion service. It covers three pieces:

- **The stream decoder** (`ResponseBodyCallback`). This is a line-by-line state machine over the
  body of a streamed completion response. Its state is the pending `data:` payload, an event-mode
  flag and the accumulated non-event text. It feeds a publisher, and the publisher ends exactly once:
  closed normally or failed.
- **The token lifecycle and the two authentication stages** (`AccessTokenProvider`,
  `PreemptiveAuthInterceptor`, `ClientCredentialsAuthenticator`).
  - One mutable token cell holds the token.
  - The configuration is validated in a fixed order.
  - The token endpoint and form are built deterministically.
  - The preemptive rule and the reactive (on-401) rule decide whether to load a token and which
    request to send. The reactive rule is bounded by the prior-response chain.
- **Request augmentation, error translation and service set-up** (`HeadersQueryInterceptor`,
  `AiServiceUtil`, `AIError`, `CustomAIService`, `CustomAIConnector`). This covers:
  - extra query parameters and headers;
  - the translation of failed calls into connection errors;
  - the static-key or OAuth mode choice and the interceptor layout;
  - the moderation OR-reduction;
  - the completion-request adjustments: streaming switched off, a default model.

Modules, one per source file, plus three shared ones:

| file | module | models |
|---|---|---|
| wrappers.dfy | Wrappers | Option / Result |
| java_text.dfy | JavaText | `String.trim`, `startsWith`, `isBlank`, `Boolean.parseBoolean`, `String.valueOf(int)` |
| http.dfy | Http | OkHttp headers, URLs, requests, responses, `AIConnectionException`, proxies |
| ai_error.dfy | ErrorBody | `AIError` |
| ai_service_util.dfy | ServiceUtil | `AiServiceUtil` |
| response_body_callback.dfy | StreamCallback | `ResponseBodyCallback` and the publisher |
| access_token_provider.dfy | TokenProvider | `AccessTokenProvider` |
| client_credentials_authenticator.dfy | ClientCredentials | `ClientCredentialsAuthenticator` |
| preemptive_auth_interceptor.dfy | Preemptive | `PreemptiveAuthInterceptor` |
| headers_query_interceptor.dfy | HeadersQuery | `HeadersQueryInterceptor` |
| custom_ai_service.dfy | Service | `CustomAIService` |
| custom_ai_connector.dfy | Connector | `CustomAIConnector` |

State that the Java code changes in place becomes Dafny classes with `modifies` clauses:

- the publisher, the callback, the token cell and the completion request are classes;
- each imperative method is proved against a pure function of its inputs and old state:
  `Decode`/`Run` for the decoder, `Acquire` for a token load, `Decide` and `Preempt` for the
  two authentication rules, `Augmented` for the extras interceptor, and `StreamSetting` and
  `ModelSetting` for the request adjustment;
- the lemmas state the promised properties about those functions.

Foreign calls are parameters of function type:

- JSON deserialisation: `parse`, `parseError` and `readToken`;
- the token endpoint call: `exchange`;
- the rest of an interceptor chain: `proceed`;
- DNS resolution: `resolve`;
- the host's proxy provider: `infoFor`;
- the process environment and the system properties: two maps.

The decoder's body is a sequence of lines plus how reading ends: end of stream, a read error, or the
consumer closing the publisher before the k-th line (`cancel`).

Where the code and its documentation differ, the model follows the code:

- The reactive authenticator retries at most once, because the bound is `responseCount >= 2`.
  `responseCount` itself can reach 4, where its comment says 3.
- Extra headers are set with `header(name, value)`, which replaces existing entries of that name
  rather than adding to them.
- A blank line with no pending payload is a format violation, also before any `data:` line.
- When the accumulated non-event text does not parse, the exception is built but never thrown. The
  publisher then closes normally with no item. Text that parses to JSON `null` is submitted, and
  `submit(null)` throws a NullPointerException, so the publisher fails (`NullItem`).
- An error body that is the JSON literal `null` is read as null, and `error.getErrorMessage()` then
  throws a NullPointerException that the `catch (IOException)` of `processHttpException` does not
  take. `execute` lets it through, and the stream callback fails the publisher with it
  (`ErrorTranslationFailed`).
- A successful token response without an `access_token` field stores the empty token. Jackson's
  `path(...).asText()` gives "" for a missing field.

## Model

| member | source | states |
|---|---|---|
| ErrorBody.GetErrorMessage | src/main/java/com/oxygenxml/positron/custom/connector/AIError.java:106-112 | empty when `error` is null, otherwise exactly the details' (possibly null) message |
| ErrorBody.GetErrorCode | src/main/java/com/oxygenxml/positron/custom/connector/AIError.java:119-121 | present iff `error` and its code are both non-null, and then equal to the code |
| ErrorBody.MessageAndCodeIndependent | src/main/java/com/oxygenxml/positron/custom/connector/AIError.java:106-121 | the message depends only on the message field and the code only on the code field |
| ServiceUtil.ProcessHttpException | src/main/java/com/oxygenxml/positron/custom/connector/AiServiceUtil.java:118-134 | the translated error: the default message and decimal status code, replaced by the body's message and code only when the body is present, readable and reads as an `AIError`; a body that reads as JSON `null` ends in a NullPointerException instead |
| ServiceUtil.TranslatedHttpError | src/main/java/com/oxygenxml/positron/custom/connector/AiServiceUtil.java:118-134 | the translation throws iff the error body is present, readable and reads as JSON `null`; every error it returns is caused by the `HttpException` |
| ServiceUtil.DefaultTranslation | src/main/java/com/oxygenxml/positron/custom/connector/AiServiceUtil.java:119-120 | with no body, an unreadable body or one Jackson rejects, the error keeps the exception's message and the decimal status as code |
| ServiceUtil.ParsedTranslation | src/main/java/com/oxygenxml/positron/custom/connector/AiServiceUtil.java:120-128 | with a parsed body the message is the body's, falling back to the exception's, and the code is the body's, null when absent |
| ServiceUtil.InvalidKeyExample | src/main/java/com/oxygenxml/positron/custom/connector/AiServiceUtil.java:118-142 | a 401 with body code `invalid_api_key` yields that message and code and is classified as an invalid key |
| ServiceUtil.InvalidKeyClassification | src/main/java/com/oxygenxml/positron/custom/connector/AiServiceUtil.java:139-142 | invalid key iff the status is 401 and the code is null or `invalid_api_key`, in both directions |
| ServiceUtil.Execute | src/main/java/com/oxygenxml/positron/custom/connector/AiServiceUtil.java:92-109 | success returns the body; a non-success status fails with the translated HTTP error; an IOException fails with its message and the empty code; the NullPointerException escapes exactly when a non-success error body reads as JSON `null` |
| ServiceUtil.ConfigureProxy | src/main/java/com/oxygenxml/positron/custom/connector/AiServiceUtil.java:154-170 | an HTTP proxy is set exactly when the provider has settings for the URL and the host resolves; otherwise the builder is unchanged |
| ServiceUtil.ProxyFor | src/main/java/com/oxygenxml/positron/custom/connector/AiServiceUtil.java:154-170 | the proxy is present iff there are settings and the host resolves, with the settings' port |
| JavaText.Trim | src/main/java/com/oxygenxml/positron/custom/connector/ResponseBodyCallback.java:119 | the result is the slice `s[i..j]` left after removing a prefix and a suffix made only of characters at or below U+0020, it neither starts nor ends with such a character, and text with nothing to trim is unchanged |
| JavaText.TrimLeadingSpace | src/main/java/com/oxygenxml/positron/custom/connector/ResponseBodyCallback.java:119 | `"data: x"` trims to `x` when `x` has nothing to trim |
| JavaText.ParseBoolean | src/main/java/com/oxygenxml/positron/custom/connector/CustomAIConnector.java:176-179 | true exactly for "true" in any letter case; text of another length is false |
| JavaText.NatToString | src/main/java/com/oxygenxml/positron/custom/connector/AiServiceUtil.java:119 | `String.valueOf` of a status code: a non-empty decimal digit string without a leading zero |
| JavaText.NatToStringRoundTrip | src/main/java/com/oxygenxml/positron/custom/connector/AiServiceUtil.java:119 | reading the decimal code back gives the status, so distinct statuses give distinct codes |
| Http.NamedAppend | src/main/java/com/oxygenxml/positron/custom/connector/config/HeadersQueryInterceptor.java:71-75 | the entries of a name in a concatenation are those of each part, in order |
| Http.UnnamedAppend | src/main/java/com/oxygenxml/positron/custom/connector/config/HeadersQueryInterceptor.java:71-75 | the same for the entries of other names |
| Http.NamedAfterRemoval | src/main/java/com/oxygenxml/positron/custom/connector/config/HeadersQueryInterceptor.java:73 | removing one name leaves the entries of every different name alone |
| Http.UnnamedIdempotent | src/main/java/com/oxygenxml/positron/custom/connector/config/HeadersQueryInterceptor.java:73 | removing a name twice is removing it once |
| Http.SetHeaderEffect | src/main/java/com/oxygenxml/positron/custom/connector/config/HeadersQueryInterceptor.java:73 | after `header(m, v)` the name has exactly the one new entry, other names are unchanged and `header(m)` reads `v` |
| Http.HeaderValueAbsent | src/main/java/com/oxygenxml/positron/custom/connector/auth/PreemptiveAuthInterceptor.java:40 | `header(name)` is null iff no entry has the name |
| Http.AddHeaderEffect | src/main/java/com/oxygenxml/positron/custom/connector/auth/PreemptiveAuthInterceptor.java:50-51 | after `addHeader(m, v)` every earlier entry is still in place and `header(m)` reads `v` |
| StreamCallback.RunAt | src/main/java/com/oxygenxml/positron/custom/connector/ResponseBodyCallback.java:114-133 | one loop iteration: the sentinel stops and finishes, a violation fails with the line, and a continue or emit step goes on from the next line |
| StreamCallback.EventLineIgnored | src/main/java/com/oxygenxml/positron/custom/connector/ResponseBodyCallback.java:115-116 | an `event:` line leaves the whole decoder state unchanged and emits nothing |
| StreamCallback.DataLineReplacesPending | src/main/java/com/oxygenxml/positron/custom/connector/ResponseBodyCallback.java:117-120 | a `data:` line sets the pending payload to the trimmed text after the prefix, overwriting any earlier payload, turns event mode on and keeps the accumulator |
| StreamCallback.BlankLineFlushes | src/main/java/com/oxygenxml/positron/custom/connector/ResponseBodyCallback.java:123-129 | a blank line with a pending payload emits exactly that payload and clears it, except that `[DONE]` stops reading and emits nothing |
| StreamCallback.InvalidLines | src/main/java/com/oxygenxml/positron/custom/connector/ResponseBodyCallback.java:121-131 | a line is a format violation iff it is blank with nothing pending, or non-blank, not `event:`/`data:`, with event mode on or a payload pending |
| StreamCallback.RunIsFramedThenDelivered | src/main/java/com/oxygenxml/positron/custom/connector/ResponseBodyCallback.java:114-149 | the decoder equals framing the lines into payloads, then deserialising them in order, then the terminal transition |
| StreamCallback.FramePrefix | src/main/java/com/oxygenxml/positron/custom/connector/ResponseBodyCallback.java:114-133 | the payloads framed from a prefix of the lines are a prefix of those framed from all of them: items follow line order |
| StreamCallback.DeliverStopsAtFirstFailure | src/main/java/com/oxygenxml/positron/custom/connector/ResponseBodyCallback.java:169-176 | the first payload that does not parse fails the publisher; exactly the items before it are delivered |
| StreamCallback.UnparseablePayloadStops | src/main/java/com/oxygenxml/positron/custom/connector/ResponseBodyCallback.java:114 | a payload that fails to deserialise ends the stream: the earlier items, then failure with that payload, and nothing later |
| StreamCallback.RunCloses | src/main/java/com/oxygenxml/positron/custom/connector/ResponseBodyCallback.java:114-152 | the loop and what follows never leave the publisher open |
| StreamCallback.DecodeCloses | src/main/java/com/oxygenxml/positron/custom/connector/ResponseBodyCallback.java:87-162 | every response leaves the publisher closed or failed |
| StreamCallback.CancelYieldsPrefix | src/main/java/com/oxygenxml/positron/custom/connector/ResponseBodyCallback.java:114 | a consumer that closes early sees a prefix of the items a full read gives |
| StreamCallback.DecodeCancelYieldsPrefix | src/main/java/com/oxygenxml/positron/custom/connector/ResponseBodyCallback.java:114 | the same for a whole response, at any cancellation point |
| StreamCallback.TrailingDataDropped | src/main/java/com/oxygenxml/positron/custom/connector/ResponseBodyCallback.java:114-133 | a `data:` payload still pending at the end of the body, followed by any number of `event:` or `data:` lines, is never emitted: the body ends as if cut off before that line |
| StreamCallback.EventModeTail | src/main/java/com/oxygenxml/positron/custom/connector/ResponseBodyCallback.java:114-150 | after a `data:` line, trailing `event:` and `data:` lines emit nothing and the publisher closes normally |
| StreamCallback.NonEventAccumulates | src/main/java/com/oxygenxml/positron/custom/connector/ResponseBodyCallback.java:121-122 | while no `data:` line has been seen, the non-blank lines other than `event:` lines are concatenated with no separator, and at the end of the body that text alone decides the outcome, as `Finish` does |
| StreamCallback.NonEventDocument | src/main/java/com/oxygenxml/positron/custom/connector/ResponseBodyCallback.java:135-149 | a plain JSON body gives one item when its text parses to a value; JSON `null` fails the publisher with `NullItem`; empty or unparseable text gives no item and a normal close |
| StreamCallback.HttpErrorFails | src/main/java/com/oxygenxml/positron/custom/connector/ResponseBodyCallback.java:95-105 | a non-2xx response emits nothing and fails with the code "", the translated message, and the translated `AIConnectionException` from `processHttpException` as its cause; it fails with the NullPointerException of the translation exactly when the error body reads as JSON `null` |
| StreamCallback.DataLine | src/main/java/com/oxygenxml/positron/custom/connector/ResponseBodyCallback.java:117-120 | `data: x` makes `x` the pending payload when `x` has nothing to trim |
| StreamCallback.TwoEventsThenDone | src/main/java/com/oxygenxml/positron/custom/connector/ResponseBodyCallback.java:114-149 | two framed events and the `[DONE]` sentinel give exactly the two items, in order, and a normal close |
| StreamCallback.Publisher.Submit | src/main/java/com/oxygenxml/positron/custom/connector/ResponseBodyCallback.java:172 | an item is appended while the publisher is open and rejected once it is closed |
| StreamCallback.Publisher.Close | src/main/java/com/oxygenxml/positron/custom/connector/ResponseBodyCallback.java:149 | an open publisher becomes closed; a closed one is unchanged |
| StreamCallback.Publisher.CloseExceptionally | src/main/java/com/oxygenxml/positron/custom/connector/ResponseBodyCallback.java:203-205 | an open publisher becomes failed with the throwable; a closed one is unchanged |
| StreamCallback.ResponseBodyCallback.constructor | src/main/java/com/oxygenxml/positron/custom/connector/ResponseBodyCallback.java:72-77 | the callback holds the publisher and the payload type; no reader is open |
| StreamCallback.ResponseBodyCallback.Submit | src/main/java/com/oxygenxml/positron/custom/connector/ResponseBodyCallback.java:169-176 | a payload that parses to a value is submitted; JSON `null` fails the publisher with `NullItem` and an unparseable payload with `Unparseable`; a closed publisher is left as it is |
| StreamCallback.ResponseBodyCallback.OnFailure | src/main/java/com/oxygenxml/positron/custom/connector/ResponseBodyCallback.java:193-196 | the publisher fails with the throwable and keeps its items |
| StreamCallback.ResponseBodyCallback.OnResponse | src/main/java/com/oxygenxml/positron/custom/connector/ResponseBodyCallback.java:87-162 | the publisher's new items and end state are exactly `Decode`'s, and an opened reader is closed again |
| StreamCallback.ResponseBodyCallback.ReadBody | src/main/java/com/oxygenxml/positron/custom/connector/ResponseBodyCallback.java:107-152 | the `try` block's effect on the publisher is `Run` over the lines read |
| StreamCallback.ResponseBodyCallback.Pump | src/main/java/com/oxygenxml/positron/custom/connector/ResponseBodyCallback.java:114-133 | the loop submits the items `Run` predicts and stops at the point `Run` stops |
| StreamCallback.ResponseBodyCallback.Consume | src/main/java/com/oxygenxml/positron/custom/connector/ResponseBodyCallback.java:115-132 | one pass of the loop body advances exactly as `Run` does on that line: the sentinel stops with the state unchanged, a bad line fails the publisher, and a payload is submitted |
| StreamCallback.ResponseBodyCallback.Complete | src/main/java/com/oxygenxml/positron/custom/connector/ResponseBodyCallback.java:135-149 | after the loop: the non-event fallback item if any, then a normal close |
| TokenProvider.GetProperty | src/main/java/com/oxygenxml/positron/custom/connector/auth/AccessTokenProvider.java:228-238 | the environment variable, else the system property, else null |
| TokenProvider.MissingParameter | src/main/java/com/oxygenxml/positron/custom/connector/auth/AccessTokenProvider.java:125-138 | the first missing of endpoint, client id, client secret in that order, and none iff all are present |
| TokenProvider.RequestUrl | src/main/java/com/oxygenxml/positron/custom/connector/auth/AccessTokenProvider.java:144-149 | the token URL whenever it is set, otherwise `https://<domain>/oauth/token` |
| TokenProvider.FormValueAppend | src/main/java/com/oxygenxml/positron/custom/connector/auth/AccessTokenProvider.java:152-165 | a field looked up in a concatenated form comes from the first part that has it |
| TokenProvider.FormValueAbsent | src/main/java/com/oxygenxml/positron/custom/connector/auth/AccessTokenProvider.java:152-165 | a form with no field of the name has no value for it |
| TokenProvider.TokenFormFields | src/main/java/com/oxygenxml/positron/custom/connector/auth/AccessTokenProvider.java:152-165 | grant type, client id and client secret come first; scope, audience and organization are present exactly when set, and the length counts them |
| TokenProvider.IncompleteConfiguration | src/main/java/com/oxygenxml/positron/custom/connector/auth/AccessTokenProvider.java:125-138 | an incomplete configuration sends nothing and fails with the missing-parameter message |
| TokenProvider.CompleteConfiguration | src/main/java/com/oxygenxml/positron/custom/connector/auth/AccessTokenProvider.java:139-195 | a complete configuration sends one form POST to the chosen endpoint, through the proxy chosen for it; it succeeds iff the reply is a 2xx whose body has a token, and then the token is that text; a non-2xx fails with the status and the body (or the status message); a transport failure fails with its message |
| TokenProvider.MissingClientIdExample | src/main/java/com/oxygenxml/positron/custom/connector/auth/AccessTokenProvider.java:131-134 | with an endpoint but no client id, the client id is reported whether or not the secret is set |
| TokenProvider.ClientIdMessage | src/main/java/com/oxygenxml/positron/custom/connector/auth/AccessTokenProvider.java:203-206 | the exact message naming the missing client id |
| TokenProvider.BadRequestExample | src/test/java/com/oxygenxml/positron/custom/connector/auth/AccessTokenProviderTest.java:116-129 | a 400 with no body fails with the message that names the status and the status message |
| TokenProvider.AccessTokenProvider.constructor | src/main/java/com/oxygenxml/positron/custom/connector/auth/AccessTokenProvider.java:83-96 | no token initially |
| TokenProvider.AccessTokenProvider.SetAccessToken | src/main/java/com/oxygenxml/positron/custom/connector/auth/AccessTokenProvider.java:113-115 | the cell holds exactly the given token, none for null |
| TokenProvider.AccessTokenProvider.LoadAuthenticationToken | src/main/java/com/oxygenxml/positron/custom/connector/auth/AccessTokenProvider.java:123-195 | the request sent, the failure raised and the new token are those of `Acquire`; a failure leaves the token unchanged |
| ClientCredentials.ResponseCount | src/main/java/com/oxygenxml/positron/custom/connector/auth/ClientCredentialsAuthenticator.java:97-108 | 1 + the number of prior responses, capped at 4 |
| ClientCredentials.RetriedOnceIffPrior | src/main/java/com/oxygenxml/positron/custom/connector/auth/ClientCredentialsAuthenticator.java:66 | the count is at least 2 iff the response has a prior response |
| ClientCredentials.BoundedRetry | src/main/java/com/oxygenxml/positron/custom/connector/auth/ClientCredentialsAuthenticator.java:66-68 | with a prior response the result is null and no token is loaded |
| ClientCredentials.LoadsIffNeeded | src/main/java/com/oxygenxml/positron/custom/connector/auth/ClientCredentialsAuthenticator.java:70-79 | on a first challenge a load happens iff there is no cached token, no `Authorization` header, or the code is 401 |
| ClientCredentials.LoadFailureRethrown | src/main/java/com/oxygenxml/positron/custom/connector/auth/ClientCredentialsAuthenticator.java:75-78 | a failed load is rethrown with the same message and nothing is retried |
| ClientCredentials.RetryCarriesBearer | src/main/java/com/oxygenxml/positron/custom/connector/auth/ClientCredentialsAuthenticator.java:81-87 | a retried request is the original with exactly one `Authorization: Bearer <token>` entry for the token now in the cell, and nothing else changed |
| ClientCredentials.CachedTokenReused | src/main/java/com/oxygenxml/positron/custom/connector/auth/ClientCredentialsAuthenticator.java:70-84 | a non-401 answer to a request that carried a header, with a cached token, reuses that token and loads nothing |
| ClientCredentials.SuccessAfterTokenLoad | src/test/java/com/oxygenxml/positron/custom/connector/auth/ClientCredentialsAuthenticatorTest.java:57-73 | a first 401 with a successful load is retried with the loaded bearer token |
| ClientCredentials.ClientCredentialsAuthenticator.constructor | src/main/java/com/oxygenxml/positron/custom/connector/auth/ClientCredentialsAuthenticator.java:51-53 | the authenticator holds the shared token provider |
| ClientCredentials.ClientCredentialsAuthenticator.Authenticate | src/main/java/com/oxygenxml/positron/custom/connector/auth/ClientCredentialsAuthenticator.java:65-88 | the decision and the new token cell are `Decide`'s for the old cell and the load's result |
| Preemptive.HeaderPresentForwardedUnchanged | src/main/java/com/oxygenxml/positron/custom/connector/auth/PreemptiveAuthInterceptor.java:40-54 | a request that has an `Authorization` header is forwarded unchanged and nothing is loaded |
| Preemptive.LoadsIffNoHeaderAndNoToken | src/main/java/com/oxygenxml/positron/custom/connector/auth/PreemptiveAuthInterceptor.java:41-47 | a load happens iff the request has no `Authorization` header and no token is cached |
| Preemptive.BearerAppended | src/main/java/com/oxygenxml/positron/custom/connector/auth/PreemptiveAuthInterceptor.java:49-52 | without a header, the forwarded request is the original plus one appended bearer header when a token exists, else the original |
| Preemptive.LoadFailureAborts | src/main/java/com/oxygenxml/positron/custom/connector/auth/PreemptiveAuthInterceptor.java:42-46 | a failed load aborts with the same message and nothing is forwarded |
| Preemptive.PreemptiveAuthInterceptor.constructor | src/main/java/com/oxygenxml/positron/custom/connector/auth/PreemptiveAuthInterceptor.java:30-32 | the interceptor holds the shared token provider |
| Preemptive.PreemptiveAuthInterceptor.Intercept | src/main/java/com/oxygenxml/positron/custom/connector/auth/PreemptiveAuthInterceptor.java:38-55 | what is forwarded, the result and the new cell are `Preempt`'s; a load failure never reaches `proceed` |
| HeadersQuery.LastNamed | src/main/java/com/oxygenxml/positron/custom/connector/config/HeadersQueryInterceptor.java:71-75 | the last configured pair of a name, which is a pair of that name |
| HeadersQuery.ApplyHeadersEffect | src/main/java/com/oxygenxml/positron/custom/connector/config/HeadersQueryInterceptor.java:71-75 | after the loop a configured name has exactly one entry, holding its last pair, and other names keep theirs |
| HeadersQuery.ConfiguredHeaderWins | src/main/java/com/oxygenxml/positron/custom/connector/config/HeadersQueryInterceptor.java:73 | the forwarded value of a configured header is that of its last pair |
| HeadersQuery.OtherHeadersUntouched | src/main/java/com/oxygenxml/positron/custom/connector/config/HeadersQueryInterceptor.java:71-75 | headers no pair names are unchanged |
| HeadersQuery.LastEntryValue | src/main/java/com/oxygenxml/positron/custom/connector/config/HeadersQueryInterceptor.java:73 | with one entry of a name, `header(name)` reads it |
| HeadersQuery.OnlyUrlAndHeadersChange | src/main/java/com/oxygenxml/positron/custom/connector/config/HeadersQueryInterceptor.java:63-70 | method, body and URL location are kept, and the query only grows, at its end, by the configured pairs in order |
| HeadersQuery.NothingConfigured | src/main/java/com/oxygenxml/positron/custom/connector/config/HeadersQueryInterceptor.java:64-71 | a missing supplier or a null query list keeps the URL; a missing supplier or a null header list keeps the headers; with both, the request is forwarded as it is |
| HeadersQuery.HeadersQueryInterceptor.constructor | src/main/java/com/oxygenxml/positron/custom/connector/config/HeadersQueryInterceptor.java:48-51 | the interceptor holds both suppliers |
| HeadersQuery.HeadersQueryInterceptor.Intercept | src/main/java/com/oxygenxml/positron/custom/connector/config/HeadersQueryInterceptor.java:62-82 | the forwarded request is `Augmented`'s, and an IOException comes back with the same message and a code-"500" cause |
| Service.WithStaticKey | src/main/java/com/oxygenxml/positron/custom/connector/CustomAIService.java:172-176 | the static-key interceptor appends one header: earlier entries are kept, `Authorization` reads `Bearer <key>`, and method, URL and body are unchanged |
| Service.StaticKeyAuthorizes | src/main/java/com/oxygenxml/positron/custom/connector/CustomAIService.java:170-176 | in static-key mode every request carries `Authorization: Bearer <key>` |
| Service.NullOrBlankKeySelectsOAuth | src/main/java/com/oxygenxml/positron/custom/connector/CustomAIService.java:170 | a blank key or the text "null" is not a static key |
| Service.CreateServiceHttpClient | src/main/java/com/oxygenxml/positron/custom/connector/CustomAIService.java:162-193 | the proxy is the one chosen for the base URL. A static key installs only its own interceptor and no authenticator. Otherwise one fresh token provider is shared by the preemptive interceptor and the authenticator. The extras interceptor is present iff headers or query parameters are configured, and comes right after the auth stage. The logging stage is last, and the read timeout is the service's |
| Service.FlagsOrIsAnyFlagged | src/main/java/com/oxygenxml/positron/custom/connector/CustomAIService.java:145-150 | the OR over the flags equals "some result is flagged" |
| Service.Examined | src/main/java/com/oxygenxml/positron/custom/connector/CustomAIService.java:145-150 | the loop looks at results up to and including the first flagged one only |
| Service.ModerationExamples | src/main/java/com/oxygenxml/positron/custom/connector/CustomAIService.java:142-152 | one flagged result among two is flagged; an empty or null list is not |
| Service.CustomAIService.constructor | src/main/java/com/oxygenxml/positron/custom/connector/CustomAIService.java:96-111 | the moderation flag is read once from the configuration, and the client is built for the base URL with the chosen mode |
| Service.CustomAIService.ApplyModeration | src/main/java/com/oxygenxml/positron/custom/connector/CustomAIService.java:141-153 | a successful call gives true iff some result is flagged (false for a null or empty list), having examined results only up to the first flagged one; failed calls and a null body are errors |
| Connector.Lookup | src/main/java/com/oxygenxml/positron/custom/connector/CustomAIConnector.java:156-179 | a resolved parameter, absent (null) iff the key is missing |
| Connector.ValueOf | src/main/java/com/oxygenxml/positron/custom/connector/CustomAIConnector.java:157 | `String.valueOf`: null gives "null", text is kept, and a check box's text parses back to its value |
| Connector.PairsOf | src/main/java/com/oxygenxml/positron/custom/connector/CustomAIConnector.java:166-173 | the list cast: a key-value table gives its pairs, anything else null |
| Connector.ConfigFor | src/main/java/com/oxygenxml/positron/custom/connector/CustomAIConnector.java:151-181 | the base URL and key are `String.valueOf` of their parameters, the lists are the casts, and moderation is `parseBoolean` of its parameter |
| Connector.MissingKeySelectsOAuth | src/main/java/com/oxygenxml/positron/custom/connector/CustomAIConnector.java:161-163 | without an API key parameter the key reads "null", which selects the OAuth mode |
| Connector.ModerationFlag | src/main/java/com/oxygenxml/positron/custom/connector/CustomAIConnector.java:176-179 | a check box value is taken as is, and a missing parameter turns moderation off |
| Connector.ExtrasIffTables | src/main/java/com/oxygenxml/positron/custom/connector/CustomAIConnector.java:166-173 | the extras stage is configured iff a headers or a query-parameters table is set |
| Connector.StreamSetting | src/main/java/com/oxygenxml/positron/custom/connector/CustomAIConnector.java:194-198 | null stays null, streaming is never turned on, and the value changes iff the request asked to stream and streaming is not allowed |
| Connector.ModelSetting | src/main/java/com/oxygenxml/positron/custom/connector/CustomAIConnector.java:201-208 | an existing model is kept; otherwise the configured model when its text is non-empty, else "gpt-4o" |
| Connector.ModelNeverEmpty | src/main/java/com/oxygenxml/positron/custom/connector/CustomAIConnector.java:201-208 | the adjusted request never names an empty model unless it already did |
| Connector.CustomAIConnector.CreateAIService | src/main/java/com/oxygenxml/positron/custom/connector/CustomAIConnector.java:151-181 | the service gets the moderation flag and the authentication mode from the resolved parameters |
| Connector.CustomAIConnector.ConfigureCompletionRequest | src/main/java/com/oxygenxml/positron/custom/connector/CustomAIConnector.java:191-211 | the same request comes back with its stream flag given by `StreamSetting` and its model by `ModelSetting` |

## Left out

- Threads, the `SubmissionPublisher` executor, its buffer and backpressure, and `AiServiceUtil.streamFlow`
  are concurrency. The publisher is a sequential cell that is open, closed or failed, holding the
  submitted items. Consumer cancellation is one point in the body (`cancel`).
- JSON syntax is not modelled. Jackson is an uninterpreted parser that gives a value, JSON `null`,
  or fails.
- OkHttp and Retrofit transport is not modelled: connection pool, read timeout behaviour, the
  Retrofit builder and the `OpenAiApi` interface. `getCompletion` and `getCompletionFlux` only
  delegate to `execute` and `streamFlow`.
- Logging and `RequestLoggingInterceptor`: logging only affects log output. In the service client it
  is one marker stage.
- Query and percent encoding of URL parameters is not modelled. The query is a list of pairs.
- The base-class `configureCompletionRequest` that `CustomAIConnector.configureCompletionRequest`
  calls first is not part of this model. It is taken to return the same request.
- StreamCallback.ResponseBodyCallback.OnResponse: the reader is tracked only as never opened, open or
  closed. Closing it cannot fail.
- Proxy ports are taken to be valid (0..65535). An out-of-range port, which makes
  `InetSocketAddress` throw, is not modelled.
- A successful (2xx) token response is taken to have a body. OkHttp guarantees this for an executed
  call.
- A null exception message is not distinguished from other text.
- The authentication exceptions are not IOExceptions. So, in the extras interceptor, only the rest
  of the chain's IOException is wrapped.
- HeadersQuery.Wrapped: the rethrown IOException keeps the message and the code-"500" cause. The
  cause chain below that is reduced to the message.
- Connector.PairsOf: a non-list value under a list parameter, which would throw
  ClassCastException, is treated as null.
- A null `ModerationResult` body is modelled only as an error (`NullModerationBody`). The exact
  NullPointerException is not modelled.
- ClientCredentials.ClientCredentialsAuthenticator.Authenticate: the "null after a successful load"
  branch cannot happen with the real loader, because a successful load always stores a token.
- StreamCallback.ResponseBodyCallback.Submit: a `submit` after the consumer has closed the publisher
  (the non-event fallback after a cancelled read) is rejected (`SubmitRejected`) and changes nothing,
  because the publisher is already closed.
- The headers and query suppliers are called twice per request in the source. They are modelled as
  returning the same list both times.
- The real environment, system properties and DNS are maps and oracles.
- TokenProvider.Acquire, TokenProvider.CompleteConfiguration and
  TokenProvider.AccessTokenProvider.LoadAuthenticationToken: URL syntax is not checked. A malformed
  token URL or domain makes `Request.Builder().url` throw an IllegalArgumentException outside the
  `try`; the model sends the request instead.
- Http.SetHeader, Http.AddHeader, Service.WithStaticKey and HeadersQuery.ApplyHeaders: OkHttp's
  header validation is not modelled. A name or value with characters outside visible ASCII, which
  makes `header`/`addHeader` throw an IllegalArgumentException, is added like any other.

/** The slice of OkHttp and of the host's connector API that the connector's logic touches:
    header lists, URLs with query parameters, requests, responses with their prior-response
    chain, proxies, and the `AIConnectionException` error shape. */
module Http {
  import opened Wrappers
  import JavaText

  /** A name/value pair: a header, a query parameter, a form field, or a configured extra pair. */
  datatype Pair = Pair(first: string, second: string)

  /** The name of the authorization header. */
  const AUTHORIZATION: string := "Authorization"

  /** The `Authorization` value for a bearer credential. */
  function Bearer(credential: string): string {
    "Bearer " + credential
  }

  // ---------------------------------------------------------------------------
  // Header lists. OkHttp compares header names case-insensitively; it only accepts
  // names made of visible ASCII, for which an ASCII case fold is exact.
  // ---------------------------------------------------------------------------

  function LowerAscii(s: string): (r: string)
    ensures |r| == |s|
  {
    seq(|s|, i requires 0 <= i < |s| => JavaText.AsciiLower(s[i]))
  }

  /** OkHttp's header-name equality. */
  predicate SameName(a: string, b: string) {
    LowerAscii(a) == LowerAscii(b)
  }

  /** The entries of `headers` whose name matches `name`, in order. */
  function Named(headers: seq<Pair>, name: string): seq<Pair> {
    if headers == [] then []
    else (if SameName(headers[0].first, name) then [headers[0]] else []) + Named(headers[1..], name)
  }

  /** The entries of `headers` whose name does not match `name`, in order. */
  function Unnamed(headers: seq<Pair>, name: string): seq<Pair> {
    if headers == [] then []
    else (if SameName(headers[0].first, name) then [] else [headers[0]]) + Unnamed(headers[1..], name)
  }

  /** `request.header(name)`: the value of the LAST entry whose name matches, or null. */
  function HeaderValue(headers: seq<Pair>, name: string): Option<string> {
    if headers == [] then None
    else if SameName(headers[|headers| - 1].first, name) then Some(headers[|headers| - 1].second)
    else HeaderValue(headers[..|headers| - 1], name)
  }

  /** `builder.addHeader(name, value)`: append, keeping entries of the same name. */
  function AddHeader(headers: seq<Pair>, name: string, value: string): seq<Pair> {
    headers + [Pair(name, value)]
  }

  /** `builder.header(name, value)`: remove every entry of that name, then append. */
  function SetHeader(headers: seq<Pair>, name: string, value: string): seq<Pair> {
    Unnamed(headers, name) + [Pair(name, value)]
  }

  lemma {:induction false} NamedAppend(a: seq<Pair>, b: seq<Pair>, name: string)
    ensures Named(a + b, name) == Named(a, name) + Named(b, name)
  {
    if a != [] {
      assert (a + b)[1..] == a[1..] + b;
      NamedAppend(a[1..], b, name);
    } else {
      assert a + b == b;
    }
  }

  lemma {:induction false} UnnamedAppend(a: seq<Pair>, b: seq<Pair>, name: string)
    ensures Unnamed(a + b, name) == Unnamed(a, name) + Unnamed(b, name)
  {
    if a != [] {
      assert (a + b)[1..] == a[1..] + b;
      UnnamedAppend(a[1..], b, name);
    } else {
      assert a + b == b;
    }
  }

  /** Removing the entries named `m` leaves those named `n` alone unless `m` and `n` are the same name. */
  lemma {:induction false} NamedAfterRemoval(headers: seq<Pair>, m: string, n: string)
    ensures Named(Unnamed(headers, m), n) == if SameName(m, n) then [] else Named(headers, n)
  {
    if headers != [] {
      var h := headers[0];
      var tail := headers[1..];
      NamedAfterRemoval(tail, m, n);
      var kept := if SameName(h.first, m) then [] else [h];
      NamedAppend(kept, Unnamed(tail, m), n);
    }
  }

  /** Removing the entries named `m` twice is removing them once. */
  lemma {:induction false} UnnamedIdempotent(headers: seq<Pair>, m: string)
    ensures Unnamed(Unnamed(headers, m), m) == Unnamed(headers, m)
  {
    if headers != [] {
      var h := headers[0];
      UnnamedIdempotent(headers[1..], m);
      var kept := if SameName(h.first, m) then [] else [h];
      UnnamedAppend(kept, Unnamed(headers[1..], m), m);
    }
  }

  /** After `header(m, v)` the entries named `n` are exactly the new one when `n` is `m`'s
      name, and are unchanged otherwise; the entries not named `m` keep their order. */
  lemma SetHeaderEffect(headers: seq<Pair>, m: string, v: string, n: string)
    ensures Named(SetHeader(headers, m, v), n) == if SameName(m, n) then [Pair(m, v)] else Named(headers, n)
    ensures Unnamed(SetHeader(headers, m, v), m) == Unnamed(headers, m)
    ensures HeaderValue(SetHeader(headers, m, v), m) == Some(v)
  {
    NamedAppend(Unnamed(headers, m), [Pair(m, v)], n);
    NamedAfterRemoval(headers, m, n);
    UnnamedAppend(Unnamed(headers, m), [Pair(m, v)], m);
    UnnamedIdempotent(headers, m);
  }

  /** `header(name)` is null exactly when no entry has that name. */
  lemma {:induction false} HeaderValueAbsent(headers: seq<Pair>, name: string)
    ensures HeaderValue(headers, name).None? <==> Named(headers, name) == []
    decreases |headers|
  {
    if headers != [] {
      var init := headers[..|headers| - 1];
      var last := headers[|headers| - 1];
      assert headers == init + [last];
      NamedAppend(init, [last], name);
      assert [last][1..] == [];
      HeaderValueAbsent(init, name);
    }
  }

  /** After `addHeader(m, v)` every earlier entry is still there and `header(m)` reads `v`. */
  lemma AddHeaderEffect(headers: seq<Pair>, m: string, v: string)
    ensures AddHeader(headers, m, v)[..|headers|] == headers
    ensures HeaderValue(AddHeader(headers, m, v), m) == Some(v)
  {
  }

  // ---------------------------------------------------------------------------
  // Requests and responses
  // ---------------------------------------------------------------------------

  /** An `HttpUrl`: everything before the query, and the query parameters in order. */
  datatype Url = Url(location: string, query: seq<Pair>)

  /** A request body. */
  datatype Body = NoBody | Content(text: string) | FormBody(fields: seq<Pair>)

  /** An OkHttp `Request`: its method (`verb`), URL, headers and body. */
  datatype Request = Request(verb: string, url: Url, headers: seq<Pair>, body: Body)

  /** An OkHttp `Response` as the authentication stages see it: the request that produced it,
      its status code, and the response that preceded it in an authentication or redirect chain. */
  datatype Response = Response(request: Request, code: int, priorResponse: Option<Response>)

  /** OkHttp's `isSuccessful()` and Retrofit's: a status in 200..299. */
  predicate IsSuccessful(code: int) {
    200 <= code < 300
  }

  /** `AIConnectionException(message, code, cause)`; a null code is `None`. */
  datatype ConnectionError = ConnectionError(message: string, code: Option<string>, cause: Cause)

  /** What an exception was caused by, as far as the connector records it. */
  datatype Cause =
    | NoCause
    | HttpCause(status: int, message: string)   // a Retrofit HttpException
    | IOCause(message: string)                  // an IOException
    | AuthCause(message: string)                // an AuthRequestException
    | ConnectionCause(error: ConnectionError)   // an AIConnectionException

  /** The result of handing a request down the interceptor chain (`chain.proceed`). */
  datatype Exchange = Answered(response: Response) | IOFailure(message: string, cause: Cause)

  // ---------------------------------------------------------------------------
  // Proxies
  // ---------------------------------------------------------------------------

  /** A TCP port; `InetSocketAddress` refuses anything else. */
  type Port = p: int | 0 <= p < 0x1_0000

  /** `ProxyConnectionInfo`: where the host's proxy settings say a URL should go. */
  datatype ProxyInfo = ProxyInfo(host: string, port: Port)

  /** An HTTP `java.net.Proxy` at a resolved address. */
  datatype Proxy = HttpProxy(address: string, port: Port)

  /** The host's `ProxyProvider`: the proxy settings that apply to a URL, if any. */
  datatype ProxyProvider = ProxyProvider(infoFor: string -> Option<ProxyInfo>)

  /** `InetAddress.getByName`: the resolved address of a host, or `None` for an unknown host. */
  type Resolver = string -> Option<string>

  /** The part of an `OkHttpClient.Builder` the connector configures directly. */
  datatype ClientBuilder = ClientBuilder(proxy: Option<Proxy>)
}

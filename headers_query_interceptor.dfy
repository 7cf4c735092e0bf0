/** `HeadersQueryInterceptor`: appends the configured query parameters to every request's URL
    and sets the configured extra headers, replacing values of the same name. */
module HeadersQuery {
  import opened Wrappers
  import opened Http

  /** A `Supplier<List<Pair<String, String>>>`; `get` returns `None` for a null list. */
  datatype PairsSupplier = PairsSupplier(get: () -> Option<seq<Pair>>)

  /** The pairs a (possibly null) supplier contributes: none when it or its list is null. */
  function Configured(supplier: Option<PairsSupplier>): seq<Pair> {
    if supplier.Some? && supplier.value.get().Some? then supplier.value.get().value else []
  }

  /** `header(name, value)` for each pair, in order. */
  function ApplyHeaders(headers: seq<Pair>, pairs: seq<Pair>): seq<Pair>
    decreases |pairs|
  {
    if pairs == [] then headers
    else
      var last := pairs[|pairs| - 1];
      SetHeader(ApplyHeaders(headers, pairs[..|pairs| - 1]), last.first, last.second)
  }

  /** The last pair whose name matches `name`. */
  function LastNamed(pairs: seq<Pair>, name: string): (r: Option<Pair>)
    ensures r.Some? ==> r.value in pairs && SameName(r.value.first, name)
  {
    if pairs == [] then None
    else if SameName(pairs[|pairs| - 1].first, name) then Some(pairs[|pairs| - 1])
    else LastNamed(pairs[..|pairs| - 1], name)
  }

  /** The request `intercept` forwards. */
  function Augmented(request: Request, query: seq<Pair>, headers: seq<Pair>): Request {
    request.(url := request.url.(query := request.url.query + query),
             headers := ApplyHeaders(request.headers, headers))
  }

  /** An IOException from the rest of the chain, rethrown with the same message and an
      AIConnectionException with code "500" as its cause. */
  function Wrapped(exchange: Exchange): Exchange {
    match exchange
    case Answered(_) => exchange
    case IOFailure(message, _) => IOFailure(message, ConnectionCause(ConnectionError(message, Some("500"), IOCause(message))))
  }

  /** After the headers are applied, a name that some pair sets has exactly one entry, the last
      such pair; every other name keeps its entries. */
  lemma {:induction false} ApplyHeadersEffect(headers: seq<Pair>, pairs: seq<Pair>, name: string)
    ensures Named(ApplyHeaders(headers, pairs), name)
         == match LastNamed(pairs, name)
            case None => Named(headers, name)
            case Some(p) => [p]
    decreases |pairs|
  {
    if pairs != [] {
      var last := pairs[|pairs| - 1];
      ApplyHeadersEffect(headers, pairs[..|pairs| - 1], name);
      SetHeaderEffect(ApplyHeaders(headers, pairs[..|pairs| - 1]), last.first, last.second, name);
      if SameName(last.first, name) {
        assert Pair(last.first, last.second) == last;
      }
    }
  }

  /** The value the forwarded request has for a configured header is that of its last pair, and
      it is the only entry of that name. */
  lemma ConfiguredHeaderWins(headers: seq<Pair>, pairs: seq<Pair>, name: string)
    requires LastNamed(pairs, name).Some?
    ensures Named(ApplyHeaders(headers, pairs), name) == [LastNamed(pairs, name).value]
    ensures HeaderValue(ApplyHeaders(headers, pairs), name) == Some(LastNamed(pairs, name).value.second)
  {
    ApplyHeadersEffect(headers, pairs, name);
    LastEntryValue(ApplyHeaders(headers, pairs), name);
  }

  /** A header no pair names is untouched. */
  lemma OtherHeadersUntouched(headers: seq<Pair>, pairs: seq<Pair>, name: string)
    requires forall i :: 0 <= i < |pairs| ==> !SameName(pairs[i].first, name)
    ensures Named(ApplyHeaders(headers, pairs), name) == Named(headers, name)
  {
    ApplyHeadersEffect(headers, pairs, name);
  }

  /** When exactly one entry has the name, `header(name)` reads it. */
  lemma {:induction false} LastEntryValue(headers: seq<Pair>, name: string)
    requires |Named(headers, name)| == 1
    ensures HeaderValue(headers, name) == Some(Named(headers, name)[0].second)
    decreases |headers|
  {
    var init := headers[..|headers| - 1];
    var last := headers[|headers| - 1];
    assert headers == init + [last];
    NamedAppend(init, [last], name);
    assert [last][1..] == [];
    if !SameName(last.first, name) {
      LastEntryValue(init, name);
    } else {
      HeaderValueAbsent(init, name);
    }
  }

  /** Only the URL's query and the headers change, and the query only grows at its end. */
  lemma OnlyUrlAndHeadersChange(request: Request, query: seq<Pair>, headers: seq<Pair>)
    ensures var r := Augmented(request, query, headers);
      && r.verb == request.verb && r.body == request.body && r.url.location == request.url.location
      && r.url.query[..|request.url.query|] == request.url.query
      && r.url.query[|request.url.query|..] == query
  {
  }

  /** A missing supplier or a supplier of a null list contributes nothing: a null query list
      keeps the URL, a null header list keeps the headers, and with both the request is
      forwarded as it is. */
  lemma NothingConfigured(request: Request, query: Option<PairsSupplier>, headers: Option<PairsSupplier>)
    ensures (query.None? || query.value.get().None?)
        ==> Augmented(request, Configured(query), Configured(headers)).url == request.url
    ensures (headers.None? || headers.value.get().None?)
        ==> Augmented(request, Configured(query), Configured(headers)).headers == request.headers
    ensures (query.None? || query.value.get().None?) && (headers.None? || headers.value.get().None?)
        ==> Augmented(request, Configured(query), Configured(headers)) == request
  {
    assert request.url.query + [] == request.url.query;
  }

  class HeadersQueryInterceptor {
    const headersSupplier: Option<PairsSupplier>
    const queryParamsSupplier: Option<PairsSupplier>

    constructor (headersSupplier: Option<PairsSupplier>, queryParamsSupplier: Option<PairsSupplier>)
      ensures this.headersSupplier == headersSupplier && this.queryParamsSupplier == queryParamsSupplier
    {
      this.headersSupplier := headersSupplier;
      this.queryParamsSupplier := queryParamsSupplier;
    }

    /** `intercept(chain)`: `proceed` is the rest of the chain and `forwarded` what it was given. */
    method Intercept(request: Request, proceed: Request -> Exchange) returns (result: Exchange, ghost forwarded: Request)
      ensures forwarded == Augmented(request, Configured(queryParamsSupplier), Configured(headersSupplier))
      ensures result == Wrapped(proceed(Augmented(request, Configured(queryParamsSupplier), Configured(headersSupplier))))
    {
      var url := request.url;
      if queryParamsSupplier.Some? && queryParamsSupplier.value.get().Some? {
        var pairs := queryParamsSupplier.value.get().value;
        for i := 0 to |pairs|
          invariant url == request.url.(query := request.url.query + pairs[..i])
        {
          assert pairs[..i + 1] == pairs[..i] + [pairs[i]];
          url := url.(query := url.query + [pairs[i]]);
        }
        assert pairs[..|pairs|] == pairs;
      } else {
        assert request.url.query + [] == request.url.query;
      }

      var headers := request.headers;
      if headersSupplier.Some? && headersSupplier.value.get().Some? {
        var pairs := headersSupplier.value.get().value;
        for i := 0 to |pairs|
          invariant headers == ApplyHeaders(request.headers, pairs[..i])
        {
          assert pairs[..i + 1][..i] == pairs[..i];
          headers := SetHeader(headers, pairs[i].first, pairs[i].second);
        }
        assert pairs[..|pairs|] == pairs;
      }
      var built := request.(url := url, headers := headers);
      forwarded := built;

      var exchange := proceed(built);
      match exchange {
        case Answered(_) =>
          result := exchange;
        case IOFailure(message, _) =>
          result := IOFailure(message, ConnectionCause(ConnectionError(message, Some("500"), IOCause(message))));
      }
    }
  }
}

/**
 * The request executor of `base.ts`: building the request a call sends
 * (URL, method, headers, body), classifying what the network gives back
 * into a value or one of two errors, and the base client whose verb
 * methods all funnel into it.
 *
 * The network, `JSON.parse` and `JSON.stringify` are not modelled; they are
 * parameters: `fetch` maps the request sent to its outcome.
 */
module Base {
  import opened Options
  import opened Js
  import opened Config
  import H = Headers
  import FormUrlencoded

  /** `RequestOptions`; the cancellation signal is not modelled. */
  datatype RequestOptions = RequestOptions(
    httpMethod: Option<string>,
    body: Option<Json>,
    headers: Option<Record<string>>,
    query: Option<Record<Scalar>>)

  /** The `{}` default of `makeRequest`'s options. */
  const NoOptions := RequestOptions(None, None, None, None)

  /** What is handed to `fetch`. */
  datatype Descriptor = Descriptor(
    url: string,
    httpMethod: string,
    headers: H.HeaderList,
    body: Option<string>,
    credentials: string,
    mode: string,
    cache: string)

  datatype HttpResponse = HttpResponse(status: int, statusText: string, text: string)

  /** What the transport gives back: it threw (unreachable, TLS, aborted), or a response arrived. */
  datatype Outcome = TransportFail(message: string, stack: string) | Received(response: HttpResponse)

  /** The two error classes callers can tell apart. */
  datatype ApiError =
    | NetworkError(message: string, stack: string)
    | ApiResponseError(response: HttpResponse, message: string, errors: Json, warnings: Json, traceback: Option<Json>)

  /**
   * How the promise `makeRequest` returns settles: with a value, with one of
   * the two errors, or with the SyntaxError `JSON.parse` throws on a
   * success body that is not JSON.
   */
  datatype Settled = Resolved(value: Json) | Rejected(error: ApiError) | ParseRejected(text: string)

  /** `JSON.parse` (None where it throws) and `JSON.stringify`. */
  datatype JsonCodec = JsonCodec(parse: string -> Option<Json>, stringify: Json -> string)

  const ApplicationJson := "application/json"
  const AcceptHeader := "Accept"
  const ContentTypeHeader := "Content-Type"
  const AuthorizationHeader := "Authorization"
  const ExternalTokenHeader := "X-External-Token"

  /** The Fetch Standard's ok status: 200 to 299. */
  predicate IsOk(status: int) {
    200 <= status <= 299
  }

  // ---------------------------------------------------------------------
  // The URL

  /** The pairs a query record contributes: its keys, and its values passed through `String()`. */
  function QueryPairs(q: Record<Scalar>): (r: seq<(string, string)>)
    ensures |r| == |q|
  {
    seq(|q|, i requires 0 <= i < |q| => (q[i].0, ScalarString(q[i].1)))
  }

  /**
   * What `objectToQueryString` returns: nothing for a record without
   * entries, otherwise `?` and the form-urlencoded pairs.
   */
  function QueryString(q: Record<Scalar>): (r: string)
    ensures r == "" <==> q == []
    ensures r != "" ==> r[0] == '?'
  {
    var str := FormUrlencoded.Serialize(QueryPairs(q));
    FormUrlencoded.SerializeEmpty(QueryPairs(q));
    if str != "" then "?" + str else ""
  }

  /** A non-empty query string parses back to the record's entries, in order, each value through `String()`. */
  lemma QueryStringRoundTrip(q: Record<Scalar>)
    requires q != []
    ensures FormUrlencoded.ParseString(QueryString(q)[1..]) == Some(QueryPairs(q))
  {
    var str := FormUrlencoded.Serialize(QueryPairs(q));
    FormUrlencoded.SerializeEmpty(QueryPairs(q));
    FormUrlencoded.ParseSerialize(QueryPairs(q));
    assert ("?" + str)[1..] == str;
  }

  /** A record with entries gives `?` followed by the serialized pairs. */
  lemma QueryStringNonEmpty(q: Record<Scalar>)
    requires q != []
    ensures QueryString(q) == "?" + FormUrlencoded.Serialize(QueryPairs(q))
  {
    FormUrlencoded.SerializeEmpty(QueryPairs(q));
  }

  /** `objectToQueryString`: appends every entry to a parameter list, then serializes it. */
  method ObjectToQueryString(obj: Record<Scalar>) returns (s: string)
    ensures s == QueryString(obj)
  {
    var params: seq<(string, string)> := [];
    var i := 0;
    while i < |obj|
      invariant 0 <= i <= |obj|
      invariant |params| == i
      invariant forall k :: 0 <= k < i ==> params[k] == (obj[k].0, ScalarString(obj[k].1))
    {
      var (key, value) := obj[i];
      params := params + [(key, ScalarString(value))];
      i := i + 1;
    }
    assert params == QueryPairs(obj);
    var str := FormUrlencoded.Serialize(params);
    s := if str != "" then "?" + str else "";
  }

  /** The query part of the URL: none when no query object was given. */
  function QuerySuffix(query: Option<Record<Scalar>>): string {
    if query.Some? then QueryString(query.value) else ""
  }

  // ---------------------------------------------------------------------
  // The headers

  /** The headers of a request, from the caller's headers and the configuration. */
  function BuildHeaders(cfg: ConfigValue, opts: RequestOptions): H.HeaderList {
    var h0 := opts.headers.GetOr([]);
    var h1 := if !H.Has(h0, AcceptHeader) then H.Set(h0, AcceptHeader, ApplicationJson) else h0;
    var h2 := if !H.Has(h1, ContentTypeHeader) && TruthyOpt(opts.body)
              then H.Set(h1, ContentTypeHeader, ApplicationJson) else h1;
    var h3 := if Present(cfg.token) then H.Set(h2, AuthorizationHeader, "Bearer " + cfg.token.value) else h2;
    if Present(cfg.externalToken) then H.Set(h3, ExternalTokenHeader, cfg.externalToken.value) else h3
  }

  /** The header a name `m` reads after one optional `set(n, v)`. */
  lemma GetSetIf(c: bool, h: H.HeaderList, n: string, v: string, m: string)
    ensures H.Get(if c then H.Set(h, n, v) else h, m) == if c && H.NameEq(n, m) then Some(v) else H.Get(h, m)
  {
    if c {
      H.GetSet(h, n, v, m);
    }
  }

  /**
   * What every header name reads in a request: `Accept` and `Content-Type`
   * only get their default when the caller did not set them (the latter only
   * with a truthy body); `Authorization` and `X-External-Token` are
   * overwritten whenever the configuration has a non-empty token; every
   * other header is the caller's.
   */
  lemma HeaderRules(cfg: ConfigValue, opts: RequestOptions, m: string)
    ensures var h0, r := opts.headers.GetOr([]), BuildHeaders(cfg, opts);
      && (H.NameEq(m, AcceptHeader) ==>
            H.Get(r, m) == if H.Has(h0, AcceptHeader) then H.Get(h0, m) else Some(ApplicationJson))
      && (H.NameEq(m, ContentTypeHeader) ==>
            H.Get(r, m) == if !H.Has(h0, ContentTypeHeader) && TruthyOpt(opts.body)
                           then Some(ApplicationJson) else H.Get(h0, m))
      && (H.NameEq(m, AuthorizationHeader) ==>
            H.Get(r, m) == if Present(cfg.token) then Some("Bearer " + cfg.token.value) else H.Get(h0, m))
      && (H.NameEq(m, ExternalTokenHeader) ==>
            H.Get(r, m) == if Present(cfg.externalToken) then Some(cfg.externalToken.value) else H.Get(h0, m))
      && (!H.NameEq(m, AcceptHeader) && !H.NameEq(m, ContentTypeHeader)
          && !H.NameEq(m, AuthorizationHeader) && !H.NameEq(m, ExternalTokenHeader) ==>
            H.Get(r, m) == H.Get(h0, m))
  {
    var h0 := opts.headers.GetOr([]);
    var c1 := !H.Has(h0, AcceptHeader);
    var h1 := if c1 then H.Set(h0, AcceptHeader, ApplicationJson) else h0;
    var c2 := !H.Has(h1, ContentTypeHeader) && TruthyOpt(opts.body);
    var h2 := if c2 then H.Set(h1, ContentTypeHeader, ApplicationJson) else h1;
    var c3 := Present(cfg.token);
    var h3 := if c3 then H.Set(h2, AuthorizationHeader, "Bearer " + cfg.token.value) else h2;
    var c4 := Present(cfg.externalToken);
    GetSetIf(c1, h0, AcceptHeader, ApplicationJson, m);
    GetSetIf(c2, h1, ContentTypeHeader, ApplicationJson, m);
    GetSetIf(c3, h2, AuthorizationHeader, if c3 then "Bearer " + cfg.token.value else "", m);
    GetSetIf(c4, h3, ExternalTokenHeader, if c4 then cfg.externalToken.value else "", m);
    // Adding Accept does not make Content-Type present.
    GetSetIf(c1, h0, AcceptHeader, ApplicationJson, ContentTypeHeader);
    H.HasGet(h0, ContentTypeHeader);
    H.HasGet(h1, ContentTypeHeader);
    H.HasGet(h0, AcceptHeader);
    if H.NameEq(m, AcceptHeader) {
      H.GetCaseInsensitive(h0, m, AcceptHeader);
    }
    if H.NameEq(m, ContentTypeHeader) {
      H.GetCaseInsensitive(h0, m, ContentTypeHeader);
    }
  }

  // ---------------------------------------------------------------------
  // The request

  /**
   * The request `makeRequest(cfg, path, opts)` hands to `fetch`: the URL is
   * the base URL, the path and the query string; the method defaults to
   * GET; a falsy body is left out.
   */
  function BuildRequest(cfg: ConfigValue, path: string, opts: RequestOptions, stringify: Json -> string): (d: Descriptor)
    ensures d.url == cfg.baseUrl + path + QuerySuffix(opts.query)
    ensures opts.query.None? || opts.query.value == [] ==> d.url == cfg.baseUrl + path
    ensures d.httpMethod == if Present(opts.httpMethod) then opts.httpMethod.value else "GET"
    ensures d.body.Some? <==> TruthyOpt(opts.body)
    ensures d.body.Some? ==> d.body.value == stringify(opts.body.value)
    ensures d.headers == BuildHeaders(cfg, opts)
    ensures d.credentials == "include" && d.mode == "cors" && d.cache == "no-store"
  {
    Descriptor(
      cfg.baseUrl + path + QuerySuffix(opts.query),
      if Present(opts.httpMethod) then opts.httpMethod.value else "GET",
      BuildHeaders(cfg, opts),
      if TruthyOpt(opts.body) then Some(stringify(opts.body.value)) else None,
      "include", "cors", "no-store")
  }

  // ---------------------------------------------------------------------
  // The errors and the classification of the outcome

  /** `Request failed: <status> <statusText>`. */
  function FallbackMessage(resp: HttpResponse): string {
    "Request failed: " + IntToString(resp.status) + " " + resp.statusText
  }

  /**
   * The error body `ApiResponseError.create` can read fields from: the
   * parsed JSON, unless parsing threw or it is `null` (destructuring null
   * throws, and that is caught the same way).
   */
  function ErrorBody(resp: HttpResponse, parse: string -> Option<Json>): (b: Option<Json>)
    ensures b.Some? ==> !b.value.JNull?
  {
    match parse(resp.text)
    case Some(data) => if data.JNull? then None else Some(data)
    case None => None
  }

  /** `v || []`. */
  function OrEmptyList(v: Option<Json>): Json {
    if TruthyOpt(v) then v.value else JArr([])
  }

  /** The error `create` returns from its `catch`: the fallback message, empty lists, no traceback. */
  function FallbackError(resp: HttpResponse): ApiError {
    ApiResponseError(resp, FallbackMessage(resp), JArr([]), JArr([]), None)
  }

  /**
   * `ApiResponseError.create(response)`: it never throws. With a readable
   * body it takes the message (or the fallback when the message is falsy),
   * the errors and warnings (or empty lists) and the traceback. Otherwise,
   * and also when `String()` of a truthy message throws inside the
   * constructor, the `catch` gives the fallback message, empty lists and
   * no traceback.
   */
  function CreateApiResponseError(resp: HttpResponse, parse: string -> Option<Json>): (e: ApiError)
    ensures e.ApiResponseError? && e.response == resp
    ensures ErrorBody(resp, parse).None? ==> e == FallbackError(resp)
    ensures ErrorBody(resp, parse).Some? ==>
      var message := Field(ErrorBody(resp, parse).value, "message");
      TruthyOpt(message) && ToString(message.value).None? ==> e == FallbackError(resp)
    ensures ErrorBody(resp, parse).Some? ==>
      var data := ErrorBody(resp, parse).value;
      var message := Field(data, "message");
      !(TruthyOpt(message) && ToString(message.value).None?) ==>
      && e.message == (if TruthyOpt(message) then ToString(message.value).value else FallbackMessage(resp))
      && (TruthyOpt(Field(data, "errors")) ==> e.errors == Field(data, "errors").value)
      && (!TruthyOpt(Field(data, "errors")) ==> e.errors == JArr([]))
      && (TruthyOpt(Field(data, "warnings")) ==> e.warnings == Field(data, "warnings").value)
      && (!TruthyOpt(Field(data, "warnings")) ==> e.warnings == JArr([]))
      && e.traceback == Field(data, "traceback")
  {
    match ErrorBody(resp, parse)
    case None => FallbackError(resp)
    case Some(data) =>
      var message := Field(data, "message");
      if TruthyOpt(message) && ToString(message.value).None? then FallbackError(resp)
      else
        ApiResponseError(
          resp,
          if TruthyOpt(message) then ToString(message.value).value else FallbackMessage(resp),
          OrEmptyList(Field(data, "errors")),
          OrEmptyList(Field(data, "warnings")),
          Field(data, "traceback"))
  }

  /**
   * How `makeRequest` settles once `fetch` has an outcome. The three ways
   * are told apart by the outcome alone: a transport failure is always a
   * NetworkError, a received non-ok status always an ApiResponseError, and
   * an ok status a value unless its non-empty text fails to parse.
   */
  function Classify(outcome: Outcome, parse: string -> Option<Json>): (r: Settled)
    ensures (r.Rejected? && r.error.NetworkError?) <==> outcome.TransportFail?
    ensures outcome.TransportFail? ==> r == Rejected(NetworkError(outcome.message, outcome.stack))
    ensures (r.Rejected? && r.error.ApiResponseError?) <==> (outcome.Received? && !IsOk(outcome.response.status))
    ensures r.Rejected? && r.error.ApiResponseError? ==> r.error.response == outcome.response
    ensures outcome.Received? && !IsOk(outcome.response.status) ==>
      r == Rejected(CreateApiResponseError(outcome.response, parse))
    ensures r.ParseRejected? <==>
      outcome.Received? && IsOk(outcome.response.status) && outcome.response.text != ""
      && parse(outcome.response.text).None?
    ensures outcome.Received? && IsOk(outcome.response.status) && outcome.response.text == "" ==>
      r == Resolved(JObj([]))
    ensures (outcome.Received? && IsOk(outcome.response.status) && outcome.response.text != ""
             && parse(outcome.response.text).Some?) ==> r == Resolved(parse(outcome.response.text).value)
  {
    match outcome
    case TransportFail(message, stack) => Rejected(NetworkError(message, stack))
    case Received(resp) =>
      if !IsOk(resp.status) then Rejected(CreateApiResponseError(resp, parse))
      else if resp.text == "" then Resolved(JObj([]))
      else match parse(resp.text)
        case Some(v) => Resolved(v)
        case None => ParseRejected(resp.text)
  }

  /** `makeRequest(cfg, path, opts)`, with the network as `fetch`. */
  function Execute(cfg: ConfigValue, path: string, opts: RequestOptions, codec: JsonCodec, fetch: Descriptor -> Outcome): Settled {
    Classify(fetch(BuildRequest(cfg, path, opts, codec.stringify)), codec.parse)
  }

  /**
   * `makeRequest`, step by step: the query string is built by the loop of
   * `objectToQueryString`, the headers by the conditional `set` calls, and
   * the outcome of `fetch` is classified.
   */
  method MakeRequest(config: RequestConfig, path: string, options: RequestOptions, codec: JsonCodec, fetch: Descriptor -> Outcome)
    returns (r: Settled)
    ensures r == Execute(config.Value(), path, options, codec, fetch)
  {
    var qs := "";
    if options.query.Some? {
      qs := ObjectToQueryString(options.query.value);
    }
    var url := config.baseUrl + path + qs;

    var headers := options.headers.GetOr([]);
    if !H.Has(headers, AcceptHeader) {
      headers := H.Set(headers, AcceptHeader, ApplicationJson);
    }
    if !H.Has(headers, ContentTypeHeader) && TruthyOpt(options.body) {
      headers := H.Set(headers, ContentTypeHeader, ApplicationJson);
    }
    if Present(config.token) {
      headers := H.Set(headers, AuthorizationHeader, "Bearer " + config.token.value);
    }
    if Present(config.externalToken) {
      headers := H.Set(headers, ExternalTokenHeader, config.externalToken.value);
    }

    assert headers == BuildHeaders(config.Value(), options);

    var httpMethod := if Present(options.httpMethod) then options.httpMethod.value else "GET";
    var body := if TruthyOpt(options.body) then Some(codec.stringify(options.body.value)) else None;
    var request := Descriptor(url, httpMethod, headers, body, "include", "cors", "no-store");
    assert request == BuildRequest(config.Value(), path, options, codec.stringify);
    var outcome := fetch(request);

    match outcome {
      case TransportFail(message, stack) =>
        r := Rejected(NetworkError(message, stack));
      case Received(response) =>
        if !IsOk(response.status) {
          r := Rejected(CreateApiResponseError(response, codec.parse));
        } else {
          var text := response.text;
          if text == "" {
            r := Resolved(JObj([]));
          } else {
            match codec.parse(text) {
              case Some(v) => r := Resolved(v);
              case None => r := ParseRejected(text);
            }
          }
        }
    }
  }

  /** A non-ok response whose body has a non-empty string `message` gives the error exactly that message. */
  lemma ErrorMessageFromBody(resp: HttpResponse, parse: string -> Option<Json>, fields: seq<(string, Json)>, m: string)
    requires parse(resp.text) == Some(JObj(fields))
    requires Lookup(fields, "message") == Some(JStr(m)) && m != ""
    ensures CreateApiResponseError(resp, parse).message == m
  {
  }

  /**
   * A `message` object with its own `toString` entry, or an array holding
   * one, makes the constructor's `String()` throw: the error is the
   * fallback one, whatever errors, warnings and traceback the body has.
   */
  lemma MessageConversionThrows(resp: HttpResponse, parse: string -> Option<Json>, fields: seq<(string, Json)>,
                                items: seq<Json>, k: nat, inner: seq<(string, Json)>)
    requires parse(resp.text) == Some(JObj(fields))
    requires k < |items| && items[k] == JObj(inner) && HasKey(inner, ToStringKey)
    requires Lookup(fields, "message") == Some(JObj(inner)) || Lookup(fields, "message") == Some(JArr(items))
    ensures CreateApiResponseError(resp, parse) == FallbackError(resp)
    ensures CreateApiResponseError(resp, parse).errors == JArr([]) && CreateApiResponseError(resp, parse).traceback.None?
  {
    assert ToString(JObj(inner)).None?;
    assert ToString(JArr(items)).None? by {
      assert !items[k].JNull? && ToString(items[k]).None?;
    }
  }

  // ---------------------------------------------------------------------
  // Calls and the base client

  /**
   * A call as a client issues it: the configuration object it forwards
   * (by reference), the path and the options. Its request is built from
   * the values the object holds at the time it is sent.
   */
  datatype Call = Call(config: RequestConfig, path: string, options: RequestOptions)

  /** The request a call sends now. */
  function Describe(c: Call, stringify: Json -> string): Descriptor
    reads c.config
  {
    BuildRequest(c.config.Value(), c.path, c.options, stringify)
  }

  /** `ApiClient`: holds a configuration reference; every verb forwards it to the executor. */
  class ApiClient {
    const config: RequestConfig

    constructor (config: RequestConfig)
      ensures this.config == config
    {
      this.config := config;
    }

    /** `request(path, options)`: the executor with this client's configuration object. */
    function Request(path: string, options: RequestOptions): Call {
      Call(config, path, options)
    }

    function Get(path: string, query: Option<Record<Scalar>>): Call {
      Request(path, RequestOptions(Some("GET"), None, None, query))
    }

    function Post(path: string, body: Option<Json>, query: Option<Record<Scalar>>): Call {
      Request(path, RequestOptions(Some("POST"), body, None, query))
    }

    function Put(path: string, body: Option<Json>, query: Option<Record<Scalar>>): Call {
      Request(path, RequestOptions(Some("PUT"), body, None, query))
    }

    function Delete(path: string, query: Option<Record<Scalar>>): Call {
      Request(path, RequestOptions(Some("DELETE"), None, None, query))
    }

    function Patch(path: string, body: Option<Json>, query: Option<Record<Scalar>>): Call {
      Request(path, RequestOptions(Some("PATCH"), body, None, query))
    }
  }

  /**
   * What each verb sends: its own method, to the base URL the client's
   * configuration holds now; `get` and `delete` never carry a body, the
   * others carry the JSON of a truthy body and then `Content-Type`.
   */
  lemma VerbRequests(api: ApiClient, path: string, body: Option<Json>, query: Option<Record<Scalar>>, stringify: Json -> string)
    ensures && api.Get(path, query).config == api.config && api.Delete(path, query).config == api.config
            && api.Post(path, body, query).config == api.config && api.Put(path, body, query).config == api.config
            && api.Patch(path, body, query).config == api.config
    ensures var d := Describe(api.Get(path, query), stringify);
      d.httpMethod == "GET" && d.body.None? && d.url == api.config.baseUrl + path + QuerySuffix(query)
    ensures var d := Describe(api.Delete(path, query), stringify);
      d.httpMethod == "DELETE" && d.body.None? && d.url == api.config.baseUrl + path + QuerySuffix(query)
    ensures var d := Describe(api.Post(path, body, query), stringify);
      d.httpMethod == "POST" && d.body == (if TruthyOpt(body) then Some(stringify(body.value)) else None)
      && H.Get(d.headers, ContentTypeHeader) == (if TruthyOpt(body) then Some(ApplicationJson) else None)
    ensures var d := Describe(api.Put(path, body, query), stringify);
      d.httpMethod == "PUT" && d.body == (if TruthyOpt(body) then Some(stringify(body.value)) else None)
      && H.Get(d.headers, ContentTypeHeader) == (if TruthyOpt(body) then Some(ApplicationJson) else None)
    ensures var d := Describe(api.Patch(path, body, query), stringify);
      d.httpMethod == "PATCH" && d.body == (if TruthyOpt(body) then Some(stringify(body.value)) else None)
      && H.Get(d.headers, ContentTypeHeader) == (if TruthyOpt(body) then Some(ApplicationJson) else None)
  {
    var cfg := api.config.Value();
    HeaderRules(cfg, RequestOptions(Some("POST"), body, None, query), ContentTypeHeader);
    HeaderRules(cfg, RequestOptions(Some("PUT"), body, None, query), ContentTypeHeader);
    HeaderRules(cfg, RequestOptions(Some("PATCH"), body, None, query), ContentTypeHeader);
  }
}

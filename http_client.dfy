/**
 * The HTTP executor: routes a flat argument map into URL parameters and body
 * parameters, invokes the generated client's operation for the operation id,
 * and classifies what comes back.
 */
module Client {
  import opened Wrappers
  import opened JsValues
  import opened OpenApi

  /** A flat argument object; a key may be present with value `undefined`. */
  type Args = map<string, Value>

  /** Response headers as appended to a `Headers` object: (name, value) pairs in append order. */
  type Headers = seq<(string, string)>

  /** What a generated client operation resolves with. */
  datatype ApiResponse = ApiResponse(data: Value, status: int, headers: seq<(string, Value)>)

  /** What awaiting a generated client operation gives. */
  datatype ApiOutcome =
    | Responded(response: ApiResponse)
    | HttpError(status: int, statusText: string)   // a rejection whose error carries a `response`
    | OtherError(message: string)                  // any other rejection (network, DNS, timeout, ...)

  /**
   * The generated client after initialisation: each operation id it exposes,
   * called with the URL parameters and the body parameters.
   */
  type ApiTable = map<string, (Args, Args) -> ApiOutcome>

  datatype HttpClientConfig = HttpClientConfig(baseUrl: string, headers: map<string, string>)

  datatype HttpClientResponse = HttpClientResponse(data: Value, status: int, headers: Headers)

  datatype ClientError =
    | OperationIdRequired
    | OperationNotFound(operationId: string)
    | RequestFailed(status: int, statusText: string)
    | Rethrown(message: string)

  /** The message each failure is thrown with. */
  function Message(e: ClientError): string {
    match e
    case OperationIdRequired => "Operation ID is required"
    case OperationNotFound(id) => "Operation " + id + " not found"
    case RequestFailed(status, statusText) => "API request failed: " + IntToDecimal(status) + " " + statusText
    case Rethrown(message) => message
  }

  /** The classified HTTP failure names its status: different statuses or texts give different messages. */
  lemma RequestFailedMessageNamesStatus(s1: int, t1: string, s2: int, t2: string)
    requires Message(RequestFailed(s1, t1)) == Message(RequestFailed(s2, t2))
    ensures s1 == s2 && t1 == t2
  {
    var prefix := "API request failed: ";
    var m := Message(RequestFailed(s1, t1));
    var d1, d2 := IntToDecimal(s1), IntToDecimal(s2);
    assert m == prefix + (d1 + " " + t1) == prefix + (d2 + " " + t2);
    assert d1 + " " + t1 == m[|prefix|..] == d2 + " " + t2;
    DecimalHasNoSpace(s1);
    DecimalHasNoSpace(s2);
    SpaceAfterWord(d1, t1);
    SpaceAfterWord(d2, t2);
    assert d1 == (d1 + " " + t1)[..|d1|] == (d2 + " " + t2)[..|d2|] == d2;
    assert t1 == (d1 + " " + t1)[|d1| + 1..] == (d2 + " " + t2)[|d2| + 1..] == t2;
    IntToDecimalInjective(s1, s2);
  }

  /** The index of the first space of `x`, or its length when there is none. */
  function FirstSpace(x: string): nat {
    if x == [] || x[0] == ' ' then 0 else 1 + FirstSpace(x[1..])
  }

  lemma {:induction false} SpaceAfterWord(word: string, rest: string)
    requires forall k :: 0 <= k < |word| ==> word[k] != ' '
    ensures FirstSpace(word + " " + rest) == |word|
  {
    if word != [] {
      assert (word + " " + rest)[1..] == word[1..] + " " + rest;
      SpaceAfterWord(word[1..], rest);
    }
  }

  lemma DecimalHasNoSpace(i: int)
    ensures forall k :: 0 <= k < |IntToDecimal(i)| ==> IntToDecimal(i)[k] != ' '
  {
    if i < 0 {
      assert IntToDecimal(i) == "-" + NatToDecimal(-i);
    }
  }

  /** The call that went out to the generated client. */
  datatype OutgoingCall = OutgoingCall(operationId: string, urlParameters: Args, bodyParams: Args)

  /** What executing an operation amounts to: the call made (if any) and the result or failure. */
  datatype Execution = Execution(sent: Option<OutgoingCall>, result: Result<HttpClientResponse, ClientError>)

  // ---------------------------------------------------------------------------
  // Argument routing

  /** A declared parameter that routes its argument to the URL: named, and located in the path or the query. */
  predicate IsUrlParameter(param: Parameter) {
    param.ParameterObject? && param.name != "" && param.location != ""
    && (param.location == "path" || param.location == "query")
  }

  /** The names of the URL parameters among the declared parameters. */
  function UrlNames(params: seq<Parameter>): set<string> {
    if params == [] then {}
    else
      var last := params[|params| - 1];
      UrlNames(params[..|params| - 1]) + (if IsUrlParameter(last) then {last.name} else {})
  }

  /** The URL names are exactly the names of the declared path/query parameters. */
  lemma {:induction false} UrlNamesExactly(params: seq<Parameter>)
    ensures forall n :: n in UrlNames(params) <==> exists p :: p in params && IsUrlParameter(p) && p.name == n
  {
    if params != [] {
      var init, last := params[..|params| - 1], params[|params| - 1];
      assert params == init + [last];
      UrlNamesExactly(init);
    }
  }

  /** `args[k] !== undefined`. */
  predicate Defined(args: Args, k: string) {
    k in args && args[k] != Undefined
  }

  /** An argument goes to the URL when it is defined and either declared as a path/query parameter or there is no request body. */
  predicate ToUrl(params: seq<Parameter>, hasBody: bool, args: Args, k: string) {
    Defined(args, k) && (k in UrlNames(params) || !hasBody)
  }

  /**
   * The routing of arguments into (URL parameters, body parameters)
   * (specification of the two loops of ExecuteOperation).
   */
  function RouteArguments(params: seq<Parameter>, args: Args, hasBody: bool): (r: (Args, Args))
    // a partition of the argument keys, every value carried over unchanged
    ensures r.0.Keys !! r.1.Keys && r.0.Keys + r.1.Keys == args.Keys
    ensures forall k :: k in r.0 ==> r.0[k] == args[k] && args[k] != Undefined
    ensures forall k :: k in r.1 ==> r.1[k] == args[k]
    // declared path/query parameters with a defined value go to the URL
    ensures forall p :: p in params && IsUrlParameter(p) && Defined(args, p.name) ==> p.name in r.0
    // without a request body only undefined values are left for the body
    ensures !hasBody ==> forall k :: k in r.1 ==> r.1[k] == Undefined
    // with a request body, undeclared arguments stay in the body
    ensures hasBody ==> forall k :: k in args && k !in UrlNames(params) ==> k in r.1
  {
    UrlNamesExactly(params);
    (map k | k in args && ToUrl(params, hasBody, args, k) :: args[k],
     map k | k in args && !ToUrl(params, hasBody, args, k) :: args[k])
  }

  // ---------------------------------------------------------------------------
  // Header copy and lookup

  /** Copy the response headers: truthy values only, stringified, in entry order. */
  function CopyHeaders(entries: seq<(string, Value)>): (h: Headers)
    ensures |h| <= |entries|
  {
    if entries == [] then []
    else
      var (name, value) := entries[|entries| - 1];
      CopyHeaders(entries[..|entries| - 1]) + (if Truthy(value) then [(name, ToStr(value))] else [])
  }

  /** The copy keeps exactly the truthy entries, each value replaced by its string form. */
  lemma {:induction false} CopyHeadersExactly(entries: seq<(string, Value)>)
    ensures forall e :: e in CopyHeaders(entries) <==>
      exists k :: 0 <= k < |entries| && Truthy(entries[k].1) && e == (entries[k].0, ToStr(entries[k].1))
  {
    if entries != [] {
      var init := entries[..|entries| - 1];
      CopyHeadersExactly(init);
      forall k | 0 <= k < |init| ensures entries[k] == init[k] { }
    }
  }

  /** The copy keeps entry order: a split entry list is copied part by part. */
  lemma {:induction false} CopyHeadersAppend(a: seq<(string, Value)>, b: seq<(string, Value)>)
    ensures CopyHeaders(a + b) == CopyHeaders(a) + CopyHeaders(b)
  {
    if b == [] {
      assert a + b == a;
    } else {
      assert (a + b)[..|a + b| - 1] == a + b[..|b| - 1];
      CopyHeadersAppend(a, b[..|b| - 1]);
    }
  }

  /** The values of the headers whose name matches `name` case-insensitively, in append order. */
  function MatchingValues(h: Headers, name: string): seq<string> {
    if h == [] then []
    else
      var (key, value) := h[|h| - 1];
      MatchingValues(h[..|h| - 1], name) + (if ToLower(key) == ToLower(name) then [value] else [])
  }

  function JoinValues(values: seq<string>): string
    requires values != []
  {
    if |values| == 1 then values[0] else JoinValues(values[..|values| - 1]) + ", " + values[|values| - 1]
  }

  /** `headers.get(name)`: case-insensitive; several values are joined with ", "; null when there is none. */
  function HeadersGet(h: Headers, name: string): (r: Option<string>)
    ensures r.Some? <==> exists k :: 0 <= k < |h| && ToLower(h[k].0) == ToLower(name)
  {
    MatchingPresent(h, name);
    var values := MatchingValues(h, name);
    if values == [] then None else Some(JoinValues(values))
  }

  lemma {:induction false} MatchingPresent(h: Headers, name: string)
    ensures MatchingValues(h, name) != [] <==> exists k :: 0 <= k < |h| && ToLower(h[k].0) == ToLower(name)
  {
    if h != [] {
      var init := h[..|h| - 1];
      MatchingPresent(init, name);
      forall k | 0 <= k < |init| ensures h[k] == init[k] { }
    }
  }

  /** A single header is read back as it was set, whatever the case of the name asked for. */
  lemma SingleHeaderGet(name: string, value: string, asked: string)
    requires ToLower(name) == ToLower(asked)
    ensures HeadersGet([(name, value)], asked) == Some(value)
  {
    var h := [(name, value)];
    assert h[..0] == [];
    assert MatchingValues(h, asked) == MatchingValues([], asked) + [value] == [value];
  }

  /** Matching values keep append order: a split header list is searched part by part. */
  lemma {:induction false} MatchingValuesAppend(a: Headers, b: Headers, name: string)
    ensures MatchingValues(a + b, name) == MatchingValues(a, name) + MatchingValues(b, name)
  {
    if b == [] {
      assert a + b == a;
    } else {
      assert (a + b)[..|a + b| - 1] == a + b[..|b| - 1];
      MatchingValuesAppend(a, b[..|b| - 1], name);
    }
  }

  /** When exactly one header matches the name, `get` returns that header's value, whatever else is present. */
  lemma SoleHeaderGet(h: Headers, name: string, k: nat)
    requires k < |h| && ToLower(h[k].0) == ToLower(name)
    requires forall j :: 0 <= j < |h| && j != k ==> ToLower(h[j].0) != ToLower(name)
    ensures HeadersGet(h, name) == Some(h[k].1)
  {
    var before, after := h[..k], h[k + 1..];
    assert h == before + [h[k]] + after;
    MatchingValuesAppend(before + [h[k]], after, name);
    MatchingValuesAppend(before, [h[k]], name);
    NoMatchNoValues(before, name);
    forall j | 0 <= j < |after| ensures ToLower(after[j].0) != ToLower(name) {
      assert after[j] == h[k + 1 + j];
    }
    NoMatchNoValues(after, name);
    assert [h[k]][..0] == [];
    assert MatchingValues([h[k]], name) == [h[k].1];
  }

  lemma {:induction false} NoMatchNoValues(h: Headers, name: string)
    requires forall j :: 0 <= j < |h| ==> ToLower(h[j].0) != ToLower(name)
    ensures MatchingValues(h, name) == []
  {
    if h != [] {
      NoMatchNoValues(h[..|h| - 1], name);
    }
  }

  // ---------------------------------------------------------------------------
  // Executing an operation

  /** Default headers of every request: `Content-Type: application/json`, overridable by the configuration. */
  function DefaultHeaders(configured: map<string, string>): (h: map<string, string>)
    ensures h.Keys == configured.Keys + {"Content-Type"}
    ensures forall k :: k in configured ==> h[k] == configured[k]
    ensures "Content-Type" !in configured ==> h["Content-Type"] == "application/json"
  {
    map["Content-Type" := "application/json"] + configured
  }

  /** The outcome of executing an operation (specification of ExecuteOperation). */
  function Execute(api: ApiTable, operation: Operation, params: Args): (x: Execution)
    // failures raised before any call is made
    ensures x.result == Failure(OperationIdRequired) <==> Blank(operation.operationId)
    ensures !Blank(operation.operationId) ==>
      (x.result == Failure(OperationNotFound(operation.operationId.value)) <==> operation.operationId.value !in api)
    ensures x.sent.Some? <==> !Blank(operation.operationId) && operation.operationId.value in api
    // the call that is made: the operation's id, with the routed arguments
    ensures x.sent.Some? ==>
      && x.sent.value.operationId == operation.operationId.value
      && (x.sent.value.urlParameters, x.sent.value.bodyParams)
           == RouteArguments(operation.parameters, params, operation.requestBody.Some?)
    // how the client's outcome is reported
    ensures x.sent.Some? ==>
      var call := x.sent.value;
      match api[call.operationId](call.urlParameters, call.bodyParams)
      case Responded(resp) =>
        x.result == Success(HttpClientResponse(resp.data, resp.status, CopyHeaders(resp.headers)))
      case HttpError(status, statusText) =>
        x.result.Failure? && Message(x.result.error) == "API request failed: " + IntToDecimal(status) + " " + statusText
      case OtherError(message) =>
        x.result == Failure(Rethrown(message))
  {
    if Blank(operation.operationId) then Execution(None, Failure(OperationIdRequired))
    else
      var id := operation.operationId.value;
      var (url, body) := RouteArguments(operation.parameters, params, operation.requestBody.Some?);
      if id !in api then Execution(None, Failure(OperationNotFound(id)))
      else
        var result := match api[id](url, body)
          case Responded(resp) => Success(HttpClientResponse(resp.data, resp.status, CopyHeaders(resp.headers)))
          case HttpError(status, statusText) => Failure(RequestFailed(status, statusText))
          case OtherError(message) => Failure(Rethrown(message));
        Execution(Some(OutgoingCall(id, url, body)), result)
  }

  /** After the declared parameters: the defined path/query arguments, and the rest. */
  function AfterDeclared(names: set<string>, params: Args): (Args, Args) {
    (map k | k in params && k in names && Defined(params, k) :: params[k],
     map k | k in params && !(k in names && Defined(params, k)) :: params[k])
  }

  lemma AfterDeclaredStep(names: set<string>, params: Args, name: string)
    ensures var (url, body) := AfterDeclared(names, params);
      AfterDeclared(names + {name}, params)
        == if Defined(params, name) then (url[name := params[name]], body - {name}) else (url, body)
  {
    var (url, body) := AfterDeclared(names, params);
    var (url2, body2) := AfterDeclared(names + {name}, params);
    if Defined(params, name) {
      assert url2.Keys == url.Keys + {name};
      assert body2.Keys == body.Keys - {name};
      assert url2 == url[name := params[name]];
      assert body2 == body - {name};
    } else {
      assert url2.Keys == url.Keys;
      assert body2.Keys == body.Keys;
      assert url2 == url;
      assert body2 == body;
    }
  }

  lemma AfterNoDeclared(params: Args)
    ensures AfterDeclared({}, params) == (map[], params)
  {
    var (url, body) := AfterDeclared({}, params);
    assert url.Keys == {};
    assert url == map[];
    assert body.Keys == params.Keys;
    assert forall k :: k in body ==> body[k] == params[k];
    assert body == params;
  }

  /** With a request body, the routing is what the declared parameters leave. */
  lemma RouteWithBody(declared: seq<Parameter>, params: Args)
    ensures AfterDeclared(UrlNames(declared), params) == RouteArguments(declared, params, true)
  {
    var (url, body) := AfterDeclared(UrlNames(declared), params);
    var (url2, body2) := RouteArguments(declared, params, true);
    assert url.Keys == url2.Keys;
    assert body.Keys == body2.Keys;
  }

  /** Without a request body, the defined leftovers join the URL parameters. */
  lemma RouteWithoutBody(declared: seq<Parameter>, params: Args, url0: Args, body0: Args)
    requires (url0, body0) == AfterDeclared(UrlNames(declared), params)
    ensures (url0 + AfterDeclared(body0.Keys, body0).0, AfterDeclared(body0.Keys, body0).1)
            == RouteArguments(declared, params, false)
  {
    var (moved, body) := AfterDeclared(body0.Keys, body0);
    var url := url0 + moved;
    var (url2, body2) := RouteArguments(declared, params, false);
    forall k | k in params
      ensures k in url <==> k in url2
      ensures k in body <==> k in body2
    {
      if k in UrlNames(declared) && Defined(params, k) {
        assert k in url0;
      } else {
        assert k in body0 && body0[k] == params[k];
      }
    }
    assert url.Keys == url2.Keys;
    assert forall k :: k in url ==> url[k] == url2[k];
    assert url == url2;
    assert body.Keys == body2.Keys;
    assert forall k :: k in body ==> body[k] == body2[k];
    assert body == body2;
  }

  /**
   * Separate the arguments by location: defined path/query arguments move to
   * the URL parameters; without a request body every other defined argument
   * follows them.
   */
  method SplitParameters(declared: seq<Parameter>, params: Args, hasBody: bool)
    returns (urlParameters: Args, bodyParams: Args)
    ensures (urlParameters, bodyParams) == RouteArguments(declared, params, hasBody)
  {
    urlParameters := map[];
    bodyParams := params;
    var i := 0;
    assert UrlNames(declared[..0]) == {};
    AfterNoDeclared(params);
    while i < |declared|
      invariant 0 <= i <= |declared|
      invariant (urlParameters, bodyParams) == AfterDeclared(UrlNames(declared[..i]), params)
    {
      var param := declared[i];
      assert declared[..i + 1][..i] == declared[..i];
      if IsUrlParameter(param) {
        AfterDeclaredStep(UrlNames(declared[..i]), params, param.name);
      } else {
        assert UrlNames(declared[..i + 1]) == UrlNames(declared[..i]);
      }
      if param.ParameterObject? && param.name != "" && param.location != "" {
        if param.location == "path" || param.location == "query" {
          if param.name in params && params[param.name] != Undefined {
            urlParameters := urlParameters[param.name := params[param.name]];
            bodyParams := bodyParams - {param.name};
          }
        }
      }
      i := i + 1;
    }
    assert declared[..i] == declared;

    if hasBody {
      RouteWithBody(declared, params);
    } else {
      ghost var url0, body0 := urlParameters, bodyParams;
      var keys := bodyParams.Keys;
      AfterNoDeclared(body0);
      assert body0.Keys - keys == {};
      while keys != {}
        invariant keys <= body0.Keys
        invariant urlParameters == url0 + AfterDeclared(body0.Keys - keys, body0).0
        invariant bodyParams == AfterDeclared(body0.Keys - keys, body0).1
        decreases keys
      {
        var key :| key in keys;
        AfterDeclaredStep(body0.Keys - keys, body0, key);
        assert body0.Keys - (keys - {key}) == (body0.Keys - keys) + {key};
        if bodyParams[key] != Undefined {
          urlParameters := urlParameters[key := bodyParams[key]];
          bodyParams := bodyParams - {key};
        }
        keys := keys - {key};
      }
      assert body0.Keys - keys == body0.Keys;
      RouteWithoutBody(declared, params, url0, body0);
    }
  }

  /** The HTTP client: the base URL and default headers it was configured with, and the generated client. */
  class HttpClient {
    const baseUrl: string
    const headers: map<string, string>
    const api: ApiTable

    /** Configure the client; `api` stands for the initialised generated client of the document. */
    constructor(config: HttpClientConfig, api: ApiTable)
      ensures baseUrl == config.baseUrl && headers == DefaultHeaders(config.headers) && this.api == api
    {
      baseUrl := config.baseUrl;
      headers := DefaultHeaders(config.headers);
      this.api := api;
    }

    /**
     * Execute an operation: route the arguments, call the generated client's
     * operation with (URL parameters, body parameters), and copy the response
     * or classify the failure.
     */
    method ExecuteOperation(operation: Operation, verb: string, path: string, params: Args)
      returns (result: Result<HttpClientResponse, ClientError>, sent: Option<OutgoingCall>)
      ensures Execution(sent, result) == Execute(api, operation, params)
    {
      if Blank(operation.operationId) {
        return Failure(OperationIdRequired), None;
      }
      var operationId := operation.operationId.value;
      var hasBody := operation.requestBody.Some?;

      var urlParameters, bodyParams := SplitParameters(operation.parameters, params, hasBody);

      if operationId !in api {
        return Failure(OperationNotFound(operationId)), None;
      }
      sent := Some(OutgoingCall(operationId, urlParameters, bodyParams));
      var outcome := api[operationId](urlParameters, bodyParams);
      match outcome {
        case Responded(response) =>
          var copied: Headers := [];
          var j := 0;
          while j < |response.headers|
            invariant 0 <= j <= |response.headers|
            invariant copied == CopyHeaders(response.headers[..j])
          {
            var (key, value) := response.headers[j];
            assert response.headers[..j + 1][..j] == response.headers[..j];
            if Truthy(value) {
              copied := copied + [(key, ToStr(value))];
            }
            j := j + 1;
          }
          assert response.headers[..j] == response.headers;
          result := Success(HttpClientResponse(response.data, response.status, copied));
        case HttpError(status, statusText) =>
          result := Failure(RequestFailed(status, statusText));
        case OtherError(message) =>
          result := Failure(Rethrown(message));
      }
    }
  }
}

/**
 * The protocol adapter: checks the base URL and builds the catalog at
 * construction, lists the catalog as tools, and answers a tool call by
 * looking up the operation, executing it and shaping the response into one
 * content block.
 */
module Proxy {
  import opened Wrappers
  import opened JsValues
  import opened OpenApi
  import opened Parser
  import opened Client

  /** The kind of the single content block of a call result. */
  datatype ContentKind = TextContent | ImageContent | BinaryContent

  /** The key under which a block carries its payload: `text` or `data`. */
  datatype PayloadKey = TextKey | DataKey

  datatype ContentBlock = ContentBlock(kind: ContentKind, key: PayloadKey, payload: string)

  datatype CallToolResult = CallToolResult(content: seq<ContentBlock>)

  /** A listed tool; the input schema is passed through from the method, which never has one. */
  datatype Tool = Tool(name: string, description: string, inputSchema: Value)

  /** A tool call: the tool name and the (possibly absent) argument object. */
  datatype CallToolRequest = CallToolRequest(name: string, arguments: Option<Args>)

  datatype ProxyError =
    | NoBaseUrl
    | MethodNotFound(name: string)
    | ClientFailure(error: ClientError)

  function ErrorMessage(e: ProxyError): string {
    match e
    case NoBaseUrl => "No base URL found in OpenAPI spec"
    case MethodNotFound(name) => "Method " + name + " not found"
    case ClientFailure(error) => Message(error)
  }

  // ---------------------------------------------------------------------------
  // Construction

  /** The base URL: the `url` of the first server, when there is a non-empty one. */
  function BaseUrl(doc: Document): (r: Option<string>)
    ensures r.Some? <==>
      doc.servers.Some? && |doc.servers.value| > 0 && !Blank(doc.servers.value[0].url)
    ensures r.Some? ==> r.value == doc.servers.value[0].url.value && r.value != ""
  {
    if doc.servers.None? || |doc.servers.value| == 0 || Blank(doc.servers.value[0].url) then None
    else Some(doc.servers.value[0].url.value)
  }

  /** How reading `servers?.[0].url` can fail as written. */
  datatype BaseUrlFailure = MissingBaseUrl | TypeErrorReadingUrl

  /**
   * `servers?.[0].url` followed by the falsiness check, as written: an empty
   * `servers` array makes `servers[0]` undefined, and reading `.url` from it
   * throws a TypeError before the check is reached.
   */
  function BaseUrlAsWritten(doc: Document): (r: Result<string, BaseUrlFailure>)
    ensures r == Failure(TypeErrorReadingUrl) <==> doc.servers == Some([])
    ensures doc.servers != Some([]) ==>
      (r.Success? <==> BaseUrl(doc).Some?) && (r.Success? ==> r.value == BaseUrl(doc).value)
  {
    if doc.servers.None? then Failure(MissingBaseUrl)
    else if doc.servers.value == [] then Failure(TypeErrorReadingUrl)
    else if Blank(doc.servers.value[0].url) then Failure(MissingBaseUrl)
    else Success(doc.servers.value[0].url.value)
  }

  /** A document with `servers: []` gets a TypeError instead of the base-URL error. */
  lemma EmptyServersThrowTypeError(paths: seq<(string, Option<PathItem>)>)
    ensures BaseUrlAsWritten(Document(Some([]), paths)) == Failure(TypeErrorReadingUrl)
    ensures BaseUrl(Document(Some([]), paths)).None?
  {
  }

  // ---------------------------------------------------------------------------
  // Lookup and content type

  /** `openApiLookup[name] ?? null`, as an own-key lookup. */
  function FindOperation(lookup: map<string, LookupEntry>, name: string): (r: Option<LookupEntry>)
    ensures r.Some? <==> name in lookup
    ensures r.Some? ==> r.value == lookup[name]
  {
    if name in lookup then Some(lookup[name]) else None
  }

  /** The members every plain object inherits from `Object.prototype`. */
  const ObjectPrototypeMembers: set<string> := {
    "constructor", "hasOwnProperty", "isPrototypeOf", "propertyIsEnumerable",
    "toString", "toLocaleString", "valueOf", "__proto__",
    "__defineGetter__", "__defineSetter__", "__lookupGetter__", "__lookupSetter__"
  }

  /** What indexing the plain lookup object yields, as written: own entries first, then inherited members. */
  datatype LookupHit = Own(entry: LookupEntry) | Inherited | Miss

  function FindOperationAsWritten(lookup: map<string, LookupEntry>, name: string): (r: LookupHit)
    ensures r.Miss? <==> name !in lookup && name !in ObjectPrototypeMembers
    ensures r.Own? <==> name in lookup
  {
    if name in lookup then Own(lookup[name])
    else if name in ObjectPrototypeMembers then Inherited
    else Miss
  }

  /** The kind of content block for a response, from its `content-type` header. */
  function GetContentType(headers: Headers): (kind: ContentKind)
    ensures var ct := HeadersGet(headers, "content-type");
      && (kind == TextContent <==>
            ct.Some? && ((exists i: nat :: OccursAt(ct.value, "text", i)) || (exists i: nat :: OccursAt(ct.value, "json", i))))
      && (kind == ImageContent <==>
            ct.Some? && !(exists i: nat :: OccursAt(ct.value, "text", i)) && !(exists i: nat :: OccursAt(ct.value, "json", i))
            && (exists i: nat :: OccursAt(ct.value, "image", i)))
  {
    var contentType := HeadersGet(headers, "content-type");
    if contentType.None? || contentType.value == "" then BinaryContent
    else
      ContainsIffOccurs(contentType.value, "text");
      ContainsIffOccurs(contentType.value, "json");
      ContainsIffOccurs(contentType.value, "image");
      if Contains(contentType.value, "text") || Contains(contentType.value, "json") then TextContent
      else if Contains(contentType.value, "image") then ImageContent
      else BinaryContent
  }

  /** A JSON response is shown as text. */
  lemma JsonResponseIsText()
    ensures GetContentType([("content-type", "application/json")]) == TextContent
  {
    SingleHeaderGet("content-type", "application/json", "content-type");
    assert OccursAt("application/json", "json", 12);
  }

  /** A PNG response is shown as an image. */
  lemma PngResponseIsImage()
    ensures GetContentType([("content-type", "image/png")]) == ImageContent
  {
    SingleHeaderGet("content-type", "image/png", "content-type");
    PngMentionsOnlyImage();
    ImageContentType([("content-type", "image/png")], "image/png");
  }

  lemma PngMentionsOnlyImage()
    ensures !Contains("image/png", "text") && !Contains("image/png", "json") && Contains("image/png", "image")
  {
    FirstCharAbsent("image/png", "text");
    FirstCharAbsent("image/png", "json");
    assert OccursAt("image/png", "image", 0);
    OccursContains("image/png", "image", 0);
  }

  /** A content type that mentions neither text nor JSON but mentions an image is shown as an image. */
  lemma ImageContentType(headers: Headers, ct: string)
    requires HeadersGet(headers, "content-type") == Some(ct)
    requires !Contains(ct, "text") && !Contains(ct, "json") && Contains(ct, "image")
    ensures GetContentType(headers) == ImageContent
  {
  }

  /** A response without a content type is binary. */
  lemma NoContentTypeIsBinary(headers: Headers)
    requires forall k :: 0 <= k < |headers| ==> ToLower(headers[k].0) != ToLower("content-type")
    ensures GetContentType(headers) == BinaryContent
  {
  }

  // ---------------------------------------------------------------------------
  // Call results

  /** The single content block a response becomes. */
  function ToContent(response: HttpClientResponse, stringify: Value -> string): (r: CallToolResult)
    ensures |r.content| == 1
    ensures r.content[0].kind == GetContentType(response.headers)
    ensures r.content[0].key == TextKey <==> r.content[0].kind == TextContent
    ensures response.data.Str? ==> r.content[0].payload == response.data.s
    ensures !response.data.Str? ==> r.content[0].payload == stringify(response.data)
  {
    var kind := GetContentType(response.headers);
    CallToolResult([ContentBlock(kind, if kind == TextContent then TextKey else DataKey,
                                 if response.data.Str? then response.data.s else stringify(response.data))])
  }

  /** What answering a tool call amounts to: the call made to the client (if any) and the result. */
  datatype Answer = Answer(sent: Option<OutgoingCall>, result: Result<CallToolResult, ProxyError>)

  /** How a client execution is reported to the caller. */
  function Report(x: Execution, stringify: Value -> string): Answer {
    match x.result
    case Success(response) => Answer(x.sent, Success(ToContent(response, stringify)))
    case Failure(error) => Answer(x.sent, Failure(ClientFailure(error)))
  }

  /** The answer to a tool call (specification of HandleCallTool). */
  function CallOutcome(lookup: map<string, LookupEntry>, api: ApiTable, request: CallToolRequest,
                       stringify: Value -> string): (a: Answer)
    ensures request.name !in lookup ==> a == Answer(None, Failure(MethodNotFound(request.name)))
    ensures request.name in lookup ==>
      a == Report(Execute(api, lookup[request.name].operation, request.arguments.GetOr(map[])), stringify)
  {
    match FindOperation(lookup, request.name)
    case None => Answer(None, Failure(MethodNotFound(request.name)))
    case Some(entry) => Report(Execute(api, entry.operation, request.arguments.GetOr(map[])), stringify)
  }

  /** The answer as written, where an inherited member of the lookup object counts as found. */
  function CallOutcomeAsWritten(lookup: map<string, LookupEntry>, api: ApiTable, request: CallToolRequest,
                                stringify: Value -> string): (a: Answer)
    ensures request.name in lookup ==> a == CallOutcome(lookup, api, request, stringify)
    ensures request.name !in lookup && request.name in ObjectPrototypeMembers ==>
      a == Answer(None, Failure(ClientFailure(OperationIdRequired)))
  {
    match FindOperationAsWritten(lookup, request.name)
    case Miss => Answer(None, Failure(MethodNotFound(request.name)))
    // the inherited member has no `operationId`, so the client rejects it
    case Inherited => Answer(None, Failure(ClientFailure(OperationIdRequired)))
    case Own(entry) => Report(Execute(api, entry.operation, request.arguments.GetOr(map[])), stringify)
  }

  /**
   * Calling the tool `toString` on any catalog reports "Operation ID is
   * required" instead of "Method toString not found".
   */
  lemma InheritedNameMisreported(doc: Document, api: ApiTable, arguments: Option<Args>, stringify: Value -> string)
    ensures var lookup := CatalogLookup(Sites(doc.paths));
      var request := CallToolRequest("toString", arguments);
      var asWritten := CallOutcomeAsWritten(lookup, api, request, stringify).result;
      var intended := CallOutcome(lookup, api, request, stringify).result;
      && asWritten.Failure? && ErrorMessage(asWritten.error) == "Operation ID is required"
      && intended.Failure? && ErrorMessage(intended.error) == "Method toString not found"
  {
    ToStringIsNoCatalogKey(Sites(doc.paths));
    InheritedMemberMisreported(CatalogLookup(Sites(doc.paths)), api, CallToolRequest("toString", arguments), stringify);
  }

  lemma ToStringIsNoCatalogKey(sites: seq<Site>)
    ensures "toString" !in CatalogLookup(sites) && "toString" in ObjectPrototypeMembers
  {
    CatalogKeysArePrefixed(sites);
    assert "toString"[..4] != "API-" by {
      assert "toString"[0] == 't';
    }
  }

  /** A name that is no key of the lookup but an inherited member reaches the client instead of failing as unknown. */
  lemma InheritedMemberMisreported(lookup: map<string, LookupEntry>, api: ApiTable, request: CallToolRequest,
                                   stringify: Value -> string)
    requires request.name !in lookup && request.name in ObjectPrototypeMembers
    ensures var asWritten := CallOutcomeAsWritten(lookup, api, request, stringify).result;
      var intended := CallOutcome(lookup, api, request, stringify).result;
      && asWritten.Failure? && ErrorMessage(asWritten.error) == "Operation ID is required"
      && intended.Failure? && ErrorMessage(intended.error) == "Method " + request.name + " not found"
  {
  }

  /** Every key of a built lookup starts with `API-`. */
  lemma CatalogKeysArePrefixed(sites: seq<Site>)
    ensures forall key :: key in CatalogLookup(sites) ==> |key| >= 4 && key[..4] == "API-"
  {
    LookupKeysAreToolNames(sites);
    forall key | key in CatalogLookup(sites) ensures |key| >= 4 && key[..4] == "API-" {
      var m :| m in CatalogMethods(sites) && ToolName(ApiName, m.name) == key;
    }
  }

  /** An unknown tool name fails with `Method <name> not found`, and nothing is sent to the client. */
  lemma UnknownToolMakesNoCall(lookup: map<string, LookupEntry>, api: ApiTable, request: CallToolRequest,
                               stringify: Value -> string)
    requires request.name !in lookup
    ensures CallOutcome(lookup, api, request, stringify).sent.None?
    ensures ErrorMessage(CallOutcome(lookup, api, request, stringify).result.error)
              == "Method " + request.name + " not found"
  {
  }

  /** A successful call returns exactly one block, typed by the content type and keyed `text` only for text. */
  lemma SuccessfulCallShape(lookup: map<string, LookupEntry>, api: ApiTable, request: CallToolRequest,
                            stringify: Value -> string)
    requires CallOutcome(lookup, api, request, stringify).result.Success?
    ensures request.name in lookup
    ensures var x := Execute(api, lookup[request.name].operation, request.arguments.GetOr(map[]));
      var blocks := CallOutcome(lookup, api, request, stringify).result.value.content;
      && x.result.Success?
      && |blocks| == 1
      && blocks[0].kind == GetContentType(x.result.value.headers)
      && (blocks[0].key == TextKey <==> blocks[0].kind == TextContent)
      && blocks[0].payload == (if x.result.value.data.Str? then x.result.value.data.s else stringify(x.result.value.data))
  {
  }

  // ---------------------------------------------------------------------------
  // Listing

  /** The tools of one namespace, named `<namespace>-<method name>`. */
  function GroupTools(ns: string, methods: seq<MCPMethod>): seq<Tool> {
    if methods == [] then []
    else
      var m := methods[|methods| - 1];
      GroupTools(ns, methods[..|methods| - 1]) + [Tool(ToolName(ns, m.name), m.description, Undefined)]
  }

  /** The listing: namespaces in order, and the methods of each in order (specification of ListTools). */
  function ListedTools(tools: Tools): seq<Tool> {
    if tools == [] then []
    else
      var (ns, methods) := tools[|tools| - 1];
      ListedTools(tools[..|tools| - 1]) + GroupTools(ns, methods)
  }

  /** One tool per method, at the same position, named as the lookup keys are built. */
  lemma {:induction false} GroupToolsExactly(ns: string, methods: seq<MCPMethod>)
    ensures |GroupTools(ns, methods)| == |methods|
    ensures forall k :: 0 <= k < |methods| ==>
      GroupTools(ns, methods)[k] == Tool(ToolName(ns, methods[k].name), methods[k].description, Undefined)
  {
    if methods != [] {
      var init := methods[..|methods| - 1];
      GroupToolsExactly(ns, init);
      forall k | 0 <= k < |init| ensures methods[k] == init[k] { }
    }
  }

  /** A catalog of one namespace lists exactly that namespace's tools. */
  lemma SingleGroupListing(ns: string, methods: seq<MCPMethod>)
    ensures ListedTools([(ns, methods)]) == GroupTools(ns, methods)
  {
    var tools: Tools := [(ns, methods)];
    assert tools[..0] == [];
    assert ListedTools(tools) == ListedTools(tools[..0]) + GroupTools(ns, methods);
  }

  /** Every name the catalog lists is dispatched by the lookup to an operation with that method's id, and vice versa. */
  lemma ListingMatchesLookup(doc: Document)
    ensures var methods := CatalogMethods(Sites(doc.paths));
      var listed := ListedTools([(ApiName, methods)]);
      var lookup := CatalogLookup(Sites(doc.paths));
      && |listed| == |methods|
      && (forall t :: t in listed ==> t.name in lookup)
      && (forall key :: key in lookup ==> exists t :: t in listed && t.name == key)
      && (forall k :: 0 <= k < |listed| ==>
            FindOperation(lookup, listed[k].name).value.operation.operationId == Some(methods[k].name))
  {
    var sites := Sites(doc.paths);
    SingleGroupListing(ApiName, CatalogMethods(sites));
    ListedNamesAreKeys(sites);
    KeysAreListed(sites);
    forall k | 0 <= k < |CatalogMethods(sites)|
      ensures FindOperation(CatalogLookup(sites), GroupTools(ApiName, CatalogMethods(sites))[k].name).value.operation.operationId
                == Some(CatalogMethods(sites)[k].name)
    {
      ListedNameDispatches(sites, k);
    }
  }

  /** Every listed tool name is a key of the lookup. */
  lemma ListedNamesAreKeys(sites: seq<Site>)
    ensures var listed := GroupTools(ApiName, CatalogMethods(sites));
      && |listed| == |CatalogMethods(sites)|
      && forall k :: 0 <= k < |listed| ==>
           listed[k].name == ToolName(ApiName, CatalogMethods(sites)[k].name) && listed[k].name in CatalogLookup(sites)
  {
    var methods := CatalogMethods(sites);
    GroupToolsExactly(ApiName, methods);
    LookupKeysAreToolNames(sites);
    forall k | 0 <= k < |methods| ensures ToolName(ApiName, methods[k].name) in CatalogLookup(sites) {
      assert methods[k] in methods;
    }
  }

  /** Every key of the lookup is a listed tool name. */
  lemma KeysAreListed(sites: seq<Site>)
    ensures forall key :: key in CatalogLookup(sites) ==>
      exists t :: t in GroupTools(ApiName, CatalogMethods(sites)) && t.name == key
  {
    var methods := CatalogMethods(sites);
    var listed := GroupTools(ApiName, methods);
    GroupToolsExactly(ApiName, methods);
    LookupKeysAreToolNames(sites);
    forall key | key in CatalogLookup(sites) ensures exists t :: t in listed && t.name == key {
      var m :| m in methods && ToolName(ApiName, m.name) == key;
      var k :| 0 <= k < |methods| && methods[k] == m;
      var t := listed[k];
      assert t in listed && t.name == key;
    }
  }

  /** The `k`-th method's tool name is a lookup key whose operation carries that method's id. */
  lemma ListedNameDispatches(sites: seq<Site>, k: nat)
    requires k < |CatalogMethods(sites)|
    ensures var name := ToolName(ApiName, CatalogMethods(sites)[k].name);
      && name in CatalogLookup(sites)
      && CatalogLookup(sites)[name].operation.operationId == Some(CatalogMethods(sites)[k].name)
  {
    var methods := CatalogMethods(sites);
    var key := ToolName(ApiName, methods[k].name);
    LookupKeysAreToolNames(sites);
    assert methods[k] in methods;
    assert key in CatalogLookup(sites);
    LookupEntryIsLastWithId(sites, key);
    var id := CatalogLookup(sites)[key].operation.operationId.value;
    ToolNameInjective(ApiName, id, methods[k].name);
  }

  // ---------------------------------------------------------------------------
  // The adapter

  /** The proxy's state, fixed at construction. */
  class MCPProxy {
    const name: string
    const httpClient: HttpClient
    const openApiSpec: Document
    const tools: Tools
    const openApiLookup: map<string, LookupEntry>

    /** Build the client for `baseUrl` and the catalog of the document. */
    constructor(name: string, openApiSpec: Document, baseUrl: string, api: ApiTable)
      ensures this.name == name && this.openApiSpec == openApiSpec
      ensures fresh(httpClient) && httpClient.baseUrl == baseUrl && httpClient.api == api
      ensures tools == [(ApiName, CatalogMethods(Sites(openApiSpec.paths)))]
      ensures openApiLookup == CatalogLookup(Sites(openApiSpec.paths))
    {
      this.name := name;
      httpClient := new HttpClient(HttpClientConfig(baseUrl, map[]), api);
      this.openApiSpec := openApiSpec;
      var t, l := ConvertToMCPTools(openApiSpec);
      tools := t;
      openApiLookup := l;
    }

    /** List every method of every namespace as a tool named `<namespace>-<method name>`. */
    method ListTools() returns (listed: seq<Tool>)
      ensures listed == ListedTools(tools)
    {
      listed := [];
      var g := 0;
      while g < |tools|
        invariant 0 <= g <= |tools|
        invariant listed == ListedTools(tools[..g])
      {
        var (toolName, methods) := tools[g];
        assert tools[..g + 1][..g] == tools[..g];
        ghost var before := listed;
        var k := 0;
        while k < |methods|
          invariant 0 <= k <= |methods|
          invariant listed == before + GroupTools(toolName, methods[..k])
        {
          assert methods[..k + 1][..k] == methods[..k];
          listed := listed + [Tool(ToolName(toolName, methods[k].name), methods[k].description, Undefined)];
          k := k + 1;
        }
        assert methods[..k] == methods;
        g := g + 1;
      }
      assert tools[..g] == tools;
    }

    /** Answer a tool call: look the name up, execute the operation, shape the response. */
    method HandleCallTool(request: CallToolRequest, stringify: Value -> string)
      returns (result: Result<CallToolResult, ProxyError>, sent: Option<OutgoingCall>)
      ensures Answer(sent, result) == CallOutcome(openApiLookup, httpClient.api, request, stringify)
    {
      var operation := FindOperation(openApiLookup, request.name);
      if operation.None? {
        return Failure(MethodNotFound(request.name)), None;
      }
      var verb := operation.value.verb;
      var path := operation.value.path;
      var response;
      response, sent := httpClient.ExecuteOperation(operation.value.operation, verb, path,
                                                    request.arguments.GetOr(map[]));
      match response {
        case Success(r) => result := Success(ToContent(r, stringify));
        case Failure(e) => result := Failure(ClientFailure(e));
      }
    }
  }

  /** Construct the proxy, failing with `No base URL found in OpenAPI spec` when there is no base URL. */
  method NewMCPProxy(name: string, openApiSpec: Document, api: ApiTable) returns (r: Result<MCPProxy, ProxyError>)
    ensures r.Failure? <==> BaseUrl(openApiSpec).None?
    ensures r.Failure? ==> r.error == NoBaseUrl
    ensures r.Success? ==>
      && fresh(r.value)
      && r.value.httpClient.baseUrl == BaseUrl(openApiSpec).value
      && r.value.httpClient.api == api
      && r.value.tools == [(ApiName, CatalogMethods(Sites(openApiSpec.paths)))]
      && r.value.openApiLookup == CatalogLookup(Sites(openApiSpec.paths))
  {
    var baseUrl := BaseUrl(openApiSpec);
    if baseUrl.None? {
      return Failure(NoBaseUrl);
    }
    var proxy := new MCPProxy(name, openApiSpec, baseUrl.value, api);
    return Success(proxy);
  }
}

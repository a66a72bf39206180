# OpenAPI MCP server — a verified model of its core

The server exposes every operation of an OpenAPI 3 document as a tool of the
Model Context Protocol (MCP). This project models the three parts that do the
work:

- **the converter** (`Parser`) walks the document's paths and the HTTP verbs of
  each path item. It turns every operation that has an `operationId` into a
  method description: declared parameters first, then the flattened top-level
  properties of a JSON request body, then a coarse return type. It also builds
  the lookup table from the tool name `API-<operationId>` to the operation, its
  verb and its path.
- **the HTTP client** (`Client`, class `HttpClient`) executes one operation. It
  rejects a missing `operationId`. It splits the arguments into URL parameters
  and body parameters, and rejects an id the generated client does not expose.
  Then it calls the client, copies the response headers and turns failures into
  the messages the server reports.
- **the protocol adapter** (`Proxy`, class `MCPProxy`) requires a base URL at
  construction. It lists the catalog as tools and answers a tool call: it looks
  the name up, executes the operation, and shapes the response into exactly one
  content block. The block is `text`, `image` or `binary`, chosen by the
  response's content type.

OpenAPI documents are values (`OpenApi`). A `$ref` is kept as a reference and
never resolved, as in the source. JavaScript values that cross the client
boundary are modelled by `JsValues.Value`. That module also holds `String(v)`,
ASCII lower-casing and `includes`.

The generated HTTP client is outside this model. It appears as a parameter, a
map from operation id to a function from (URL parameters, body parameters) to
a response, an HTTP error or another error. `JSON.stringify` is also a
parameter (`stringify`).

Each loop of the source is a method with loop invariants. Each method is proved
equal to a specification function, and the properties are proved about those
functions as lemmas:

- `ConvertToMCPTools` is proved equal to `CatalogMethods`/`CatalogLookup` over `Sites`.
- `ExecuteOperation` is proved equal to `Execute`.
- `ListTools` is proved equal to `ListedTools`.
- `HandleCallTool` is proved equal to `CallOutcome`.

## Model

| member | source | states |
|---|---|---|
| Parser.ConvertSchemaType | src/openapi/parser.ts:121-141 | the tag is `any` exactly when the schema is absent, a `$ref`, untyped or of an unknown type; otherwise it names the schema's type, with `integer` folded into `number`; never `binary` |
| Parser.DeclaredParamsExactly | src/openapi/parser.ts:76-87 | the declared parameters become exactly the converted non-`$ref` parameters (`optional = !required`), and `$ref` parameters are dropped |
| Parser.DeclaredParamsAppend | src/openapi/parser.ts:77-86 | the declared parameters keep their order: converting a split list gives the concatenation of the parts |
| Parser.PropertyParamsExactly | src/openapi/parser.ts:149-160 | each non-`$ref` property becomes its parameter (name, converted type, description), and every parameter is such a conversion; a parameter is optional exactly when its name is not in the schema's `required` list |
| Parser.ExtractBodyParameters | src/openapi/parser.ts:143-163 | the loop yields `BodyParams`: nothing for a `$ref`, a non-object or a property-less schema, else the flattened properties in order |
| Parser.SuccessResponse | src/openapi/parser.ts:169 | the success response is `200` when present, else `201`, else none |
| Parser.ExtractResponseType | src/openapi/parser.ts:165-193 | none exactly when there is no success response, it is a `$ref`, or it has no content; JSON content gives the schema's type, otherwise PNG/JPEG give `binary` (and only they do), otherwise `any`; the description defaults to `''` |
| Parser.MethodDescription | src/openapi/parser.ts:103 | `summary`, else `description`, else `''`, where an empty string counts as absent |
| Parser.ConvertOperation | src/openapi/parser.ts:63-107 | no method exactly when `operationId` is absent or empty; otherwise the method is named by the id, with the declared parameters first, then the body parameters, plus the description and the return descriptor |
| Parser.ConvertOperationToMCPMethod | src/openapi/parser.ts:63-107 | the loops compute `ConvertOperation` |
| Parser.ItemSitesExactly | src/openapi/parser.ts:41-42 | the operations visited in a path item are exactly its entries whose key is one of the five verbs, in any letter case |
| Parser.VerbKeys | src/openapi/parser.ts:56-61 | the verb test ignores letter case: a key passes exactly when its lower-cased form passes |
| Parser.UpperCaseGetIsOperation | src/openapi/parser.ts:60 | the key `GET` is an operation |
| Parser.ParametersKeyIsNoOperation | src/openapi/parser.ts:60 | the path-item key `parameters` is not an operation |
| Parser.ItemSitesAppend | src/openapi/parser.ts:41-50 | the operations of a path item are visited in entry order |
| Parser.SitesAppend | src/openapi/parser.ts:37-51 | the paths are walked in document order |
| Parser.SitesExactly | src/openapi/parser.ts:37-42 | an operation is visited exactly when it sits under a verb key of a present path item of the document |
| Parser.MethodsFollowIdentifiedSites | src/openapi/parser.ts:44-46 | the catalog holds one method per visited operation with an id, in visiting order, each its converted operation |
| Parser.LookupKeysAreToolNames | src/openapi/parser.ts:47-48 | the lookup keys are exactly the names `API-<method name>` of the catalog's methods |
| Parser.ToolNameInjective | src/openapi/parser.ts:48 | distinct method names give distinct tool names |
| Parser.LookupNoLargerThanMethods | src/openapi/parser.ts:46-48 | a repeated id overwrites its lookup entry, so there are never more keys than methods |
| Parser.DistinctIdsKeepEveryMethod | src/openapi/parser.ts:46-48 | when the ids are distinct, there is one lookup entry per method |
| Parser.LookupEntryIsLastWithId | src/openapi/parser.ts:48 | each entry holds the last visited operation with that id, together with the verb and the path it was found under |
| Parser.AddPathItem | src/openapi/parser.ts:41-50 | the inner loop extends the catalog by the operations of one path item |
| Parser.ConvertToMCPTools | src/openapi/parser.ts:26-54 | the result is the single namespace `API` holding `CatalogMethods`, and the lookup is `CatalogLookup`, both over the visited operations |
| JsValues.DecimalRoundTrip | src/client/http-client.ts:100 | reading back the decimal rendering of a status gives the status |
| JsValues.ContainsIffOccurs | src/mcp/proxy.ts:124-126 | `includes` holds exactly when the piece occurs at some position |
| Client.UrlNamesExactly | src/client/http-client.ts:55-59 | the URL names are exactly the names of declared non-`$ref` parameters with a non-empty name and location `path` or `query` |
| Client.RouteArguments | src/client/http-client.ts:50-77 | URL and body parameters partition the arguments and keep every value; the URL side holds no undefined value; a declared path/query parameter with a defined value goes to the URL; without a request body only undefined values stay in the body; with one, undeclared arguments stay in the body |
| Client.SplitParameters | src/client/http-client.ts:50-77 | the two loops compute `RouteArguments` |
| Client.CopyHeadersExactly | src/client/http-client.ts:88-91 | the copied headers are exactly the truthy entries, each stringified |
| Client.CopyHeadersAppend | src/client/http-client.ts:88-91 | the headers are copied in entry order |
| Client.MatchingValuesAppend | src/mcp/proxy.ts:121 | the values matching a name are collected in append order |
| Client.SoleHeaderGet | src/mcp/proxy.ts:121 | when exactly one header matches the name, ignoring case, `get` returns that header's value, whatever other headers are present |
| Client.HeadersGet | src/mcp/proxy.ts:121 | a header value is found exactly when some header name equals the asked name, ignoring case |
| Client.SingleHeaderGet | src/mcp/proxy.ts:121 | a single header is read back whatever the case of the name asked for |
| Client.DefaultHeaders | src/client/http-client.ts:26-29 | the default header map holds `Content-Type: application/json` unless the configuration sets it; configured entries win |
| Client.Execute | src/client/http-client.ts:38-104 | the errors come in order: `Operation ID is required` exactly for a missing or empty id, then `Operation <id> not found` exactly for an id the client lacks; a call is made exactly otherwise, with the routed arguments; a response yields data, status and copied headers; an HTTP error yields `API request failed: <status> <text>`; any other error is rethrown |
| Client.RequestFailedMessageNamesStatus | src/client/http-client.ts:99-101 | the HTTP-failure message determines both the status and the status text |
| Client.HttpClient.constructor | src/client/http-client.ts:20-33 | the client keeps the base URL, the default headers and the generated client |
| Client.HttpClient.ExecuteOperation | src/client/http-client.ts:38-104 | the method's call and result are `Execute`'s |
| Proxy.BaseUrl | src/mcp/proxy.ts:46-49 | a base URL exists exactly when the first server has a non-empty URL, and it is that URL |
| Proxy.BaseUrlAsWritten | src/mcp/proxy.ts:46-49 | as written, the read throws a TypeError exactly for an empty `servers` list; otherwise it agrees with `BaseUrl` |
| Proxy.EmptyServersThrowTypeError | src/mcp/proxy.ts:46 | `servers: []` throws a TypeError where `No base URL found in OpenAPI spec` is intended |
| Proxy.NewMCPProxy | src/mcp/proxy.ts:38-60 | construction fails with the base-URL error exactly when there is no base URL; otherwise the client uses it and the catalog and lookup are the converter's |
| Proxy.MCPProxy.constructor | src/mcp/proxy.ts:50-57 | the proxy holds a fresh client for the base URL and the converter's catalog and lookup |
| Proxy.FindOperation | src/mcp/proxy.ts:116-118 | an entry is found exactly when the name is a key of the lookup, and it is that key's entry |
| Proxy.FindOperationAsWritten | src/mcp/proxy.ts:116-118 | as written, a name that is no key still hits when it names a member inherited from `Object.prototype` |
| Proxy.InheritedMemberMisreported | src/mcp/proxy.ts:87-101 | such a name fails with `Operation ID is required` where `Method <name> not found` is intended |
| Proxy.InheritedNameMisreported | src/mcp/proxy.ts:116-118 | for every document, calling the tool `toString` shows that discrepancy |
| Proxy.ToStringIsNoCatalogKey | src/openapi/parser.ts:48 | `toString` is never a key of a built lookup |
| Proxy.CatalogKeysArePrefixed | src/openapi/parser.ts:48 | every lookup key starts with `API-` |
| Proxy.CallOutcomeAsWritten | src/mcp/proxy.ts:82-118 | as written, it agrees with `CallOutcome` on names in the lookup and reports `Operation ID is required` for inherited names |
| Proxy.GetContentType | src/mcp/proxy.ts:120-130 | `text` exactly when the content type contains `text` or `json`; `image` exactly when it contains neither but contains `image`; `binary` otherwise, including a missing header |
| Proxy.JsonResponseIsText | src/mcp/proxy.ts:124-125 | `application/json` is shown as text |
| Proxy.PngResponseIsImage | src/mcp/proxy.ts:126-127 | `image/png` is shown as an image |
| Proxy.PngMentionsOnlyImage | src/mcp/proxy.ts:124-126 | `image/png` contains `image` but neither `text` nor `json` |
| Proxy.ImageContentType | src/mcp/proxy.ts:120-128 | a content type without `text` or `json` but with `image` is shown as an image |
| Proxy.NoContentTypeIsBinary | src/mcp/proxy.ts:121-122 | a response without a content type is binary |
| Proxy.ToContent | src/mcp/proxy.ts:104-112 | one block, typed by the content type, keyed `text` exactly for text; the payload is the string body itself, or else the stringified body |
| Proxy.CallOutcome | src/mcp/proxy.ts:82-113 | an unknown name fails with `Method <name> not found` before any call; a known one reports the client's execution of its operation with the call's arguments (an empty object when absent) |
| Proxy.UnknownToolMakesNoCall | src/mcp/proxy.ts:87-91 | an unregistered name issues no request and fails with `Method <name> not found` |
| Proxy.SuccessfulCallShape | src/mcp/proxy.ts:96-112 | a successful call returns exactly one block, of the kind given by the response's content type, carrying the string body or its stringified form |
| Proxy.GroupToolsExactly | src/mcp/proxy.ts:69-75 | one tool per method, at the same position, named `<namespace>-<method name>` |
| Proxy.ListingMatchesLookup | src/mcp/proxy.ts:64-79 | every listed name dispatches through the lookup to an operation with that method's id, and every lookup key is listed |
| Proxy.MCPProxy.ListTools | src/mcp/proxy.ts:64-79 | the nested loops compute `ListedTools` |
| Proxy.MCPProxy.HandleCallTool | src/mcp/proxy.ts:82-113 | the handler's call and answer are `CallOutcome`'s |

## Left out

- Logging (`console.warn`, `console.error`), the MCP server object, its transport, `connect`, and the asynchronous handler plumbing are not modelled; each handler is one synchronous step.
- The generated HTTP client is not modelled (an OpenAPI client library over axios). It is a parameter: a table from operation id to its outcome. Its lookup `(api as any)[operationId]` is an exact-key map lookup, so properties inherited by that object are not modelled.
- The JSON serialisation of non-string bodies is a parameter `stringify`. `JSON.stringify(undefined)` yields `undefined`, not a string; that case is not distinguished.
- Numbers are integers. Floating-point statuses and values, and `NaN`, are not modelled.
- The document's `paths`, path items, body `properties` and response headers are sequences of entries, walked in the order given. JavaScript's rule that integer-like keys are enumerated first is not modelled.
- Client.RouteArguments: the URL parameters and body parameters are maps (`Args`), so the insertion order of the objects handed to the generated client is not modelled. In the source the declared parameters come first, then the leftover arguments in argument order.
- Client.RouteArguments: arguments are an own-key map. In the source, `params[param.name]` is read from a plain object (`src/client/http-client.ts:60`). A declared path or query parameter named like an `Object.prototype` member (`constructor`, `toString`, …) that the caller omits therefore reads the inherited member and copies it into the URL parameters. The model does not capture this; such a parameter counts as undefined.
- Proxy.ListingMatchesLookup: when two operations share an id, the listing holds both and the lookup dispatches both names to the last one; the lemma states the id agreement only.
- The `Headers` object's validation and normalisation of header names and values (trimming, rejection of invalid characters) is not modelled. Names compare by ASCII lower-casing.
- `method.toLowerCase()` is modelled by ASCII lower-casing. It is exact for the five verbs, but non-ASCII keys are not folded as JavaScript would fold them.
- An operation without `responses` makes `responses['200']` throw a TypeError in the source. The model treats `responses` as a map that is always present, so that throw is not modelled.
- A request body object without `content` makes `content['application/json']` throw; that is not modelled either (the body's content is always a map).
- A value under a verb key that is not an operation object is not modelled; such an entry is treated as absent.
- Tools are listed with the method's `inputSchema`. The converter never sets one, so the listed input schema is `undefined` (`JsValues.Undefined`). `src/mcp/proxy.ts:73` passes the absent `method.inputSchema` through; no schema is built from the parameters.
- OpenAPI 3.1 `type` arrays are not modelled; `type` is a single string or absent. Other schema keywords are not modelled, since nothing in the core reads them.
- `HttpClientConfig.headers` is never set by the proxy. The model keeps it and states the default headers, but the request headers are produced inside the generated client and are not modelled.

## Findings

| source | as written | input that shows it | evidently intended | confidence | as-written member | corrected member |
|---|---|---|---|---|---|---|
| src/mcp/proxy.ts:46 | `openApiSpec.servers?.[0].url` reads `.url` of `servers[0]` without a guard | a document with `servers: []` | the constructor fails with `No base URL found in OpenAPI spec` | high, not executed | Proxy.BaseUrlAsWritten | Proxy.BaseUrl |
| src/mcp/proxy.ts:117 | `this.openApiLookup[operationId] ?? null` on a plain object also finds inherited members | a tool call named `toString` (or `constructor`, `__proto__`, …) | the call fails with `Method toString not found` and sends nothing | high, not executed | Proxy.CallOutcomeAsWritten | Proxy.CallOutcome |

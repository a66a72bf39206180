/**
 * The catalog builder: turns the `paths` of an OpenAPI document into the
 * ordered list of tool methods of the single `API` namespace and into the
 * lookup table keyed by the public tool name `API-<operationId>`.
 */
module Parser {
  import opened Wrappers
  import opened JsValues
  import opened OpenApi

  /** The coarse type tags the tool layer uses for parameters and return values. */
  datatype TypeTag = TString | TNumber | TBoolean | TArray | TObject | TBinary | TAny

  /** The string the source emits for each tag. */
  function TagName(t: TypeTag): string {
    match t
    case TString => "string"
    case TNumber => "number"
    case TBoolean => "boolean"
    case TArray => "array"
    case TObject => "object"
    case TBinary => "binary"
    case TAny => "any"
  }

  datatype MCPParameter = MCPParameter(name: string, paramType: TypeTag, description: string, optional: bool)

  datatype ReturnDescriptor = ReturnDescriptor(returnType: TypeTag, description: string)

  datatype MCPMethod = MCPMethod(
    name: string,
    description: string,
    params: seq<MCPParameter>,
    returnsInfo: Option<ReturnDescriptor>)

  /** An operation as stored in the lookup table: the operation object plus its verb key and path template. */
  datatype LookupEntry = LookupEntry(operation: Operation, verb: string, path: string)

  /** The catalog: namespace name to its methods, in insertion order. */
  type Tools = seq<(string, seq<MCPMethod>)>

  /** The one namespace every method is placed under. */
  const ApiName: string := "API"

  /** The public tool name `<namespace>-<method name>`, used both for listing and as the lookup key. */
  function ToolName(ns: string, name: string): string {
    ns + "-" + name
  }

  /** Two methods of one namespace get the same tool name only if they have the same name. */
  lemma ToolNameInjective(ns: string, a: string, b: string)
    requires ToolName(ns, a) == ToolName(ns, b)
    ensures a == b
  {
    assert a == ToolName(ns, a)[|ns| + 1..];
  }

  // ---------------------------------------------------------------------------
  // Schema normalisation

  /** The `type` values that are kept (with `integer` folded into `number`). */
  predicate KnownType(name: string) {
    name in ["integer", "number", "string", "boolean", "array", "object"]
  }

  /** Coarsen a schema to a type tag; no `$ref` is ever followed. */
  function ConvertSchemaType(schema: Option<Schema>): (t: TypeTag)
    ensures t != TBinary
    ensures t == TAny <==>
      schema.None? || schema.value.SchemaRef? || schema.value.schemaType.None?
      || !KnownType(schema.value.schemaType.value)
    ensures t != TAny ==>
      TagName(t) == schema.value.schemaType.value
      || (t == TNumber && schema.value.schemaType.value == "integer")
  {
    if schema.None? || schema.value.SchemaRef? then TAny
    else
      match schema.value.schemaType
      case Some("integer") => TNumber
      case Some("number") => TNumber
      case Some("string") => TString
      case Some("boolean") => TBoolean
      case Some("array") => TArray
      case Some("object") => TObject
      case _ => TAny
  }

  // ---------------------------------------------------------------------------
  // Operations of a path item

  /** A path-item key names an operation when its lower-cased form is one of the five verbs kept. */
  predicate IsOperation(verb: string) {
    ToLower(verb) in ["get", "post", "put", "delete", "patch"]
  }

  /** The verb test ignores letter case: a key passes exactly when its lower-cased form does. */
  lemma VerbKeys(verb: string)
    ensures IsOperation(verb) <==> IsOperation(ToLower(verb))
  {
    var lower := ToLower(verb);
    assert ToLower(lower) == lower;
  }

  /** An upper-case verb key is an operation. */
  lemma UpperCaseGetIsOperation()
    ensures IsOperation("GET")
  {
    assert ToLower("GET") == "get";
  }

  /** Other path-item keys are not operations. */
  lemma ParametersKeyIsNoOperation()
    ensures !IsOperation("parameters")
  {
    assert ToLower("parameters") == "parameters";
  }

  predicate IsParameterObject(param: Parameter) {
    !param.ParameterRef?
  }

  predicate IsRequestBodyObject(body: RequestBody) {
    !body.RequestBodyRef?
  }

  /** The tool parameter made from one declared (non-`$ref`) parameter. */
  function ToMCPParameter(param: Parameter): MCPParameter
    requires IsParameterObject(param)
  {
    MCPParameter(param.name, ConvertSchemaType(param.schema), OrElse(param.description, ""), !param.required)
  }

  /** Tool parameters from the declared parameters: `$ref` entries dropped, the others in order. */
  function DeclaredParams(params: seq<Parameter>): seq<MCPParameter> {
    if params == [] then []
    else
      var last := params[|params| - 1];
      DeclaredParams(params[..|params| - 1]) + (if IsParameterObject(last) then [ToMCPParameter(last)] else [])
  }

  /** Every declared non-`$ref` parameter yields a tool parameter, and nothing else does. */
  lemma {:induction false} DeclaredParamsExactly(params: seq<Parameter>)
    ensures |DeclaredParams(params)| <= |params|
    ensures forall q :: q in DeclaredParams(params) <==>
      exists p :: p in params && IsParameterObject(p) && q == ToMCPParameter(p)
  {
    if params != [] {
      var init, last := params[..|params| - 1], params[|params| - 1];
      assert params == init + [last];
      DeclaredParamsExactly(init);
    }
  }

  /** The declared parameters keep their order: a split list converts part by part. */
  lemma {:induction false} DeclaredParamsAppend(a: seq<Parameter>, b: seq<Parameter>)
    ensures DeclaredParams(a + b) == DeclaredParams(a) + DeclaredParams(b)
  {
    if b == [] {
      assert a + b == a;
    } else {
      assert (a + b)[..|a + b| - 1] == a + b[..|b| - 1];
      DeclaredParamsAppend(a, b[..|b| - 1]);
    }
  }

  /** A body property becomes a tool parameter, optional exactly when the schema does not list it as required. */
  function PropertyParameter(name: string, prop: Schema, required: Option<seq<string>>): MCPParameter
    requires prop.SchemaObject?
  {
    MCPParameter(name, ConvertSchemaType(Some(prop)), OrElse(prop.description, ""),
                 !(required.Some? && name in required.value))
  }

  function PropertyParams(props: seq<(string, Schema)>, required: Option<seq<string>>): seq<MCPParameter> {
    if props == [] then []
    else
      var (name, prop) := props[|props| - 1];
      PropertyParams(props[..|props| - 1], required)
        + (if prop.SchemaRef? then [] else [PropertyParameter(name, prop, required)])
  }

  /** Only an inline schema of type `object` with `properties` is flattened. */
  predicate Flattenable(schema: Schema) {
    schema.SchemaObject? && schema.schemaType == Some("object") && schema.properties.Some?
  }

  /** Tool parameters from a request-body schema (specification of ExtractBodyParameters). */
  function BodyParams(schema: Schema): seq<MCPParameter> {
    if Flattenable(schema) then PropertyParams(schema.properties.value, schema.required) else []
  }

  /** The body properties that become parameters are the non-`$ref` ones, and each is optional iff not required. */
  lemma PropertyParamsExactly(props: seq<(string, Schema)>, required: Option<seq<string>>)
    ensures |PropertyParams(props, required)| <= |props|
    ensures forall q :: q in PropertyParams(props, required) ==>
      (exists k :: 0 <= k < |props| && props[k].1.SchemaObject? && q == PropertyParameter(props[k].0, props[k].1, required))
      && (q.optional <==> !(required.Some? && q.name in required.value))
    ensures forall k :: 0 <= k < |props| && props[k].1.SchemaObject? ==>
      PropertyParameter(props[k].0, props[k].1, required) in PropertyParams(props, required)
  {
    PropertyParamsSound(props, required);
    PropertyParamsComplete(props, required);
  }

  lemma {:induction false} PropertyParamsSound(props: seq<(string, Schema)>, required: Option<seq<string>>)
    ensures |PropertyParams(props, required)| <= |props|
    ensures forall q :: q in PropertyParams(props, required) ==>
      (exists k :: 0 <= k < |props| && props[k].1.SchemaObject? && q == PropertyParameter(props[k].0, props[k].1, required))
      && (q.optional <==> !(required.Some? && q.name in required.value))
  {
    if props != [] {
      var init := props[..|props| - 1];
      PropertyParamsSound(init, required);
      forall q | q in PropertyParams(init, required)
        ensures exists k :: 0 <= k < |props| && props[k].1.SchemaObject? && q == PropertyParameter(props[k].0, props[k].1, required)
      {
        var k :| 0 <= k < |init| && init[k].1.SchemaObject? && q == PropertyParameter(init[k].0, init[k].1, required);
        assert props[k] == init[k];
      }
    }
  }

  lemma {:induction false} PropertyParamsComplete(props: seq<(string, Schema)>, required: Option<seq<string>>)
    ensures forall k :: 0 <= k < |props| && props[k].1.SchemaObject? ==>
      PropertyParameter(props[k].0, props[k].1, required) in PropertyParams(props, required)
  {
    if props != [] {
      var init := props[..|props| - 1];
      PropertyParamsComplete(init, required);
      forall k | 0 <= k < |props| - 1 ensures props[k] == init[k] { }
    }
  }

  /** Fold the request body's `application/json` schema into parameters, when there is one. */
  function RequestBodyParams(body: Option<RequestBody>): seq<MCPParameter> {
    if body.Some? && IsRequestBodyObject(body.value)
       && "application/json" in body.value.content
       && body.value.content["application/json"].schema.Some?
    then BodyParams(body.value.content["application/json"].schema.value)
    else []
  }

  /** A loop that pushes one parameter per non-`$ref` property of an object schema. */
  method ExtractBodyParameters(schema: Schema) returns (params: seq<MCPParameter>)
    ensures params == BodyParams(schema)
  {
    if schema.SchemaRef? {
      return [];
    }
    params := [];
    if schema.schemaType == Some("object") && schema.properties.Some? {
      var props := schema.properties.value;
      var i := 0;
      while i < |props|
        invariant 0 <= i <= |props|
        invariant params == PropertyParams(props[..i], schema.required)
      {
        var (name, prop) := props[i];
        assert props[..i + 1][..i] == props[..i];
        if !prop.SchemaRef? {
          params := params + [PropertyParameter(name, prop, schema.required)];
        }
        i := i + 1;
      }
      assert props[..i] == props;
    }
  }

  // ---------------------------------------------------------------------------
  // Return descriptor

  /** `responses['200'] || responses['201']`. */
  function SuccessResponse(responses: map<string, Response>): (r: Option<Response>)
    ensures r.Some? <==> "200" in responses || "201" in responses
    ensures "200" in responses ==> r == Some(responses["200"])
    ensures "200" !in responses && "201" in responses ==> r == Some(responses["201"])
  {
    if "200" in responses then Some(responses["200"])
    else if "201" in responses then Some(responses["201"])
    else None
  }

  /** The return descriptor of an operation, read off its `200` (else `201`) response. */
  function ExtractResponseType(responses: map<string, Response>): (r: Option<ReturnDescriptor>)
    ensures r.None? <==>
      var success := SuccessResponse(responses);
      success.None? || success.value.ResponseRef? || success.value.content.None?
    ensures r.Some? ==>
      var success := SuccessResponse(responses).value;
      var content := success.content.value;
      && r.value.description == OrElse(success.description, "")
      && ("application/json" in content ==> r.value.returnType == ConvertSchemaType(content["application/json"].schema))
      && (r.value.returnType == TBinary <==>
            "application/json" !in content && ("image/png" in content || "image/jpeg" in content))
      && ("application/json" !in content && "image/png" !in content && "image/jpeg" !in content ==>
            r.value.returnType == TAny)
  {
    var success := SuccessResponse(responses);
    if success.None? || success.value.ResponseRef? || success.value.content.None? then None
    else
      var content := success.value.content.value;
      var description := OrElse(success.value.description, "");
      if "application/json" in content then
        var schema := content["application/json"].schema;
        Some(ReturnDescriptor(if schema.Some? then ConvertSchemaType(schema) else TAny, description))
      else if "image/png" in content || "image/jpeg" in content then
        Some(ReturnDescriptor(TBinary, description))
      else
        Some(ReturnDescriptor(TAny, description))
  }

  // ---------------------------------------------------------------------------
  // One operation

  /** `summary || description || ''`. */
  function MethodDescription(operation: Operation): (d: string)
    ensures !Blank(operation.summary) ==> d == operation.summary.value
    ensures Blank(operation.summary) && !Blank(operation.description) ==> d == operation.description.value
    ensures Blank(operation.summary) && Blank(operation.description) ==> d == ""
  {
    OrElse(operation.summary, OrElse(operation.description, ""))
  }

  /** The method an operation becomes (specification of ConvertOperationToMCPMethod). */
  function ConvertOperation(operation: Operation): (r: Option<MCPMethod>)
    ensures r.None? <==> Blank(operation.operationId)
    ensures r.Some? ==>
      && r.value.name == operation.operationId.value != ""
      && |r.value.params| == |DeclaredParams(operation.parameters)| + |RequestBodyParams(operation.requestBody)|
      && r.value.params[..|DeclaredParams(operation.parameters)|] == DeclaredParams(operation.parameters)
      && r.value.params[|DeclaredParams(operation.parameters)|..] == RequestBodyParams(operation.requestBody)
      && r.value.description == MethodDescription(operation)
      && r.value.returnsInfo == ExtractResponseType(operation.responses)
  {
    if Blank(operation.operationId) then None
    else
      var params := DeclaredParams(operation.parameters) + RequestBodyParams(operation.requestBody);
      Some(MCPMethod(operation.operationId.value, MethodDescription(operation), params,
                     ExtractResponseType(operation.responses)))
  }

  /**
   * Convert one operation: no method without an `operationId` (the source only
   * logs a warning), otherwise the declared parameters are pushed first and the
   * flattened body properties after them.
   */
  method ConvertOperationToMCPMethod(operation: Operation, verb: string, path: string)
    returns (r: Option<MCPMethod>)
    ensures r == ConvertOperation(operation)
  {
    if Blank(operation.operationId) {
      return None;
    }
    var params: seq<MCPParameter> := [];
    var i := 0;
    while i < |operation.parameters|
      invariant 0 <= i <= |operation.parameters|
      invariant params == DeclaredParams(operation.parameters[..i])
    {
      var param := operation.parameters[i];
      assert operation.parameters[..i + 1][..i] == operation.parameters[..i];
      if IsParameterObject(param) {
        params := params + [ToMCPParameter(param)];
      }
      i := i + 1;
    }
    assert operation.parameters[..i] == operation.parameters;
    if operation.requestBody.Some? && IsRequestBodyObject(operation.requestBody.value) {
      var content := operation.requestBody.value.content;
      if "application/json" in content && content["application/json"].schema.Some? {
        var bodyParams := ExtractBodyParameters(content["application/json"].schema.value);
        params := params + bodyParams;
      }
    }
    assert params == DeclaredParams(operation.parameters) + RequestBodyParams(operation.requestBody);
    var returnsInfo := ExtractResponseType(operation.responses);
    r := Some(MCPMethod(operation.operationId.value, MethodDescription(operation), params, returnsInfo));
  }

  // ---------------------------------------------------------------------------
  // The whole document

  /** An operation together with the path-item key it was found under and its path template. */
  datatype Site = Site(path: string, verb: string, op: Operation)

  /** The operations of one path item, in document order. */
  function ItemSites(path: string, item: PathItem): seq<Site> {
    if item == [] then []
    else
      var (verb, field) := item[|item| - 1];
      ItemSites(path, item[..|item| - 1])
        + (if IsOperation(verb) && field.OperationField? then [Site(path, verb, field.op)] else [])
  }

  /** The operations of the whole `paths` object, in document order; absent path items are skipped. */
  function Sites(paths: seq<(string, Option<PathItem>)>): seq<Site> {
    if paths == [] then []
    else
      var (path, item) := paths[|paths| - 1];
      Sites(paths[..|paths| - 1]) + (if item.Some? then ItemSites(path, item.value) else [])
  }

  /** The operation `op` sits under key `verb` of path `path` in the document. */
  ghost predicate InDocument(paths: seq<(string, Option<PathItem>)>, s: Site) {
    exists i, j :: 0 <= i < |paths| && paths[i].0 == s.path && paths[i].1.Some?
      && 0 <= j < |paths[i].1.value| && paths[i].1.value[j] == (s.verb, OperationField(s.op))
  }

  /** The operations visited in a path item are exactly its entries under one of the five verbs. */
  lemma ItemSitesExactly(path: string, item: PathItem, s: Site)
    ensures s in ItemSites(path, item) <==>
      s.path == path && IsOperation(s.verb)
      && exists j :: 0 <= j < |item| && item[j] == (s.verb, OperationField(s.op))
  {
    ItemSitesSound(path, item, s);
    if s.path == path && IsOperation(s.verb) {
      forall j | 0 <= j < |item| && item[j] == (s.verb, OperationField(s.op)) ensures s in ItemSites(path, item) {
        ItemSitesComplete(path, item, j);
      }
    }
  }

  lemma {:induction false} ItemSitesSound(path: string, item: PathItem, s: Site)
    ensures s in ItemSites(path, item) ==>
      s.path == path && IsOperation(s.verb)
      && exists j :: 0 <= j < |item| && item[j] == (s.verb, OperationField(s.op))
  {
    if item != [] && s in ItemSites(path, item) {
      var init, last := item[..|item| - 1], item[|item| - 1];
      assert item == init + [last];
      ItemSitesSound(path, init, s);
      if s in ItemSites(path, init) {
        var j :| 0 <= j < |init| && init[j] == (s.verb, OperationField(s.op));
        assert item[j] == init[j];
      } else {
        assert item[|item| - 1] == (s.verb, OperationField(s.op));
      }
    }
  }

  lemma {:induction false} ItemSitesComplete(path: string, item: PathItem, j: nat)
    requires j < |item| && IsOperation(item[j].0) && item[j].1.OperationField?
    ensures Site(path, item[j].0, item[j].1.op) in ItemSites(path, item)
  {
    var init := item[..|item| - 1];
    if j < |init| {
      assert item[j] == init[j];
      ItemSitesComplete(path, init, j);
    }
  }

  /** The walk of a path item keeps document order: a split item is walked part by part. */
  lemma {:induction false} ItemSitesAppend(path: string, a: PathItem, b: PathItem)
    ensures ItemSites(path, a + b) == ItemSites(path, a) + ItemSites(path, b)
  {
    if b == [] {
      assert a + b == a;
    } else {
      assert (a + b)[..|a + b| - 1] == a + b[..|b| - 1];
      ItemSitesAppend(path, a, b[..|b| - 1]);
    }
  }

  /** The walk of the document keeps path order: a split `paths` object is walked part by part. */
  lemma {:induction false} SitesAppend(a: seq<(string, Option<PathItem>)>, b: seq<(string, Option<PathItem>)>)
    ensures Sites(a + b) == Sites(a) + Sites(b)
  {
    if b == [] {
      assert a + b == a;
    } else {
      assert (a + b)[..|a + b| - 1] == a + b[..|b| - 1];
      SitesAppend(a, b[..|b| - 1]);
    }
  }

  /** Where an operation can sit in a document that has one more path appended. */
  lemma InDocumentSnoc(paths: seq<(string, Option<PathItem>)>, s: Site)
    requires paths != []
    ensures var last := paths[|paths| - 1];
      InDocument(paths, s) <==>
        InDocument(paths[..|paths| - 1], s)
        || (last.0 == s.path && last.1.Some?
            && exists j :: 0 <= j < |last.1.value| && last.1.value[j] == (s.verb, OperationField(s.op)))
  {
    var init := paths[..|paths| - 1];
    if InDocument(init, s) {
      var i, j :| 0 <= i < |init| && init[i].0 == s.path && init[i].1.Some?
        && 0 <= j < |init[i].1.value| && init[i].1.value[j] == (s.verb, OperationField(s.op));
      assert paths[i] == init[i];
    }
    if InDocument(paths, s) {
      var i, j :| 0 <= i < |paths| && paths[i].0 == s.path && paths[i].1.Some?
        && 0 <= j < |paths[i].1.value| && paths[i].1.value[j] == (s.verb, OperationField(s.op));
      if i < |init| {
        assert paths[i] == init[i];
      }
    }
  }

  /** The walk visits exactly the verb-keyed operations of the document. */
  lemma {:induction false} SitesExactly(paths: seq<(string, Option<PathItem>)>, s: Site)
    ensures s in Sites(paths) <==> IsOperation(s.verb) && InDocument(paths, s)
  {
    if paths != [] {
      var init := paths[..|paths| - 1];
      var (path, item) := paths[|paths| - 1];
      SitesExactly(init, s);
      InDocumentSnoc(paths, s);
      if item.Some? {
        ItemSitesExactly(path, item.value, s);
      }
    }
  }

  lemma SitesPrefix(paths: seq<(string, Option<PathItem>)>, i: nat)
    requires i < |paths|
    ensures Sites(paths[..i + 1]) == Sites(paths[..i])
      + (if paths[i].1.Some? then ItemSites(paths[i].0, paths[i].1.value) else [])
  {
    assert paths[..i + 1][..i] == paths[..i];
  }

  lemma ItemSitesPrefix(path: string, item: PathItem, j: nat)
    requires j < |item|
    ensures ItemSites(path, item[..j + 1]) == ItemSites(path, item[..j])
      + (if IsOperation(item[j].0) && item[j].1.OperationField? then [Site(path, item[j].0, item[j].1.op)] else [])
  {
    assert item[..j + 1][..j] == item[..j];
  }

  /** The methods the catalog lists, in the order they are pushed. */
  function CatalogMethods(sites: seq<Site>): seq<MCPMethod> {
    if sites == [] then []
    else
      var s := sites[|sites| - 1];
      CatalogMethods(sites[..|sites| - 1])
        + (match ConvertOperation(s.op) case Some(m) => [m] case None => [])
  }

  /** The lookup table; a later operation with the same id overwrites the earlier entry. */
  function CatalogLookup(sites: seq<Site>): map<string, LookupEntry> {
    if sites == [] then map[]
    else
      var s := sites[|sites| - 1];
      var prev := CatalogLookup(sites[..|sites| - 1]);
      match ConvertOperation(s.op)
      case Some(m) => prev[ToolName(ApiName, m.name) := LookupEntry(s.op, s.verb, s.path)]
      case None => prev
  }

  lemma CatalogSnoc(sites: seq<Site>, s: Site)
    ensures CatalogMethods(sites + [s])
      == CatalogMethods(sites) + (match ConvertOperation(s.op) case Some(m) => [m] case None => [])
    ensures CatalogLookup(sites + [s])
      == (match ConvertOperation(s.op)
          case Some(m) => CatalogLookup(sites)[ToolName(ApiName, m.name) := LookupEntry(s.op, s.verb, s.path)]
          case None => CatalogLookup(sites))
  {
    assert (sites + [s])[..|sites|] == sites;
  }

  /** The sites whose operation has an `operationId`. */
  function IdentifiedSites(sites: seq<Site>): seq<Site> {
    if sites == [] then []
    else
      var s := sites[|sites| - 1];
      IdentifiedSites(sites[..|sites| - 1]) + (if Blank(s.op.operationId) then [] else [s])
  }

  /**
   * An operation without `operationId` yields no method, and every other one
   * yields exactly one, named by its id, in order.
   */
  lemma {:induction false} MethodsFollowIdentifiedSites(sites: seq<Site>)
    ensures |CatalogMethods(sites)| == |IdentifiedSites(sites)|
    ensures forall k :: 0 <= k < |CatalogMethods(sites)| ==>
      !Blank(IdentifiedSites(sites)[k].op.operationId)
      && CatalogMethods(sites)[k] == ConvertOperation(IdentifiedSites(sites)[k].op).value
  {
    if sites != [] {
      MethodsFollowIdentifiedSites(sites[..|sites| - 1]);
    }
  }

  /** Listing and dispatch agree: the lookup keys are exactly the tool names of the methods. */
  lemma {:induction false} LookupKeysAreToolNames(sites: seq<Site>)
    ensures CatalogLookup(sites).Keys == set m | m in CatalogMethods(sites) :: ToolName(ApiName, m.name)
  {
    if sites != [] {
      LookupKeysAreToolNames(sites[..|sites| - 1]);
    }
  }

  /** A duplicate id overwrites an earlier entry, so there are never more lookup keys than methods. */
  lemma {:induction false} LookupNoLargerThanMethods(sites: seq<Site>)
    ensures |CatalogLookup(sites)| <= |CatalogMethods(sites)|
  {
    if sites != [] {
      var init := sites[..|sites| - 1];
      LookupNoLargerThanMethods(init);
      var s := sites[|sites| - 1];
      if ConvertOperation(s.op).Some? {
        var k := ToolName(ApiName, ConvertOperation(s.op).value.name);
        var prev := CatalogLookup(init);
        assert prev[k := LookupEntry(s.op, s.verb, s.path)].Keys == prev.Keys + {k};
      }
    }
  }

  /** With pairwise distinct ids, every method gets its own key. */
  lemma {:induction false} DistinctIdsKeepEveryMethod(sites: seq<Site>)
    requires forall i, j :: 0 <= i < j < |sites| && !Blank(sites[i].op.operationId) ==>
      sites[i].op.operationId != sites[j].op.operationId
    ensures |CatalogLookup(sites)| == |CatalogMethods(sites)|
  {
    if sites != [] {
      var init := sites[..|sites| - 1];
      var s := sites[|sites| - 1];
      DistinctIdsKeepEveryMethod(init);
      if ConvertOperation(s.op).Some? {
        var k := ToolName(ApiName, s.op.operationId.value);
        FreshIdIsNoKey(init, s);
        var prev := CatalogLookup(init);
        assert prev[k := LookupEntry(s.op, s.verb, s.path)].Keys == prev.Keys + {k};
      }
    }
  }

  /** An id that no earlier operation carries is not yet a key. */
  lemma FreshIdIsNoKey(sites: seq<Site>, s: Site)
    requires !Blank(s.op.operationId)
    requires forall i :: 0 <= i < |sites| && !Blank(sites[i].op.operationId) ==>
      sites[i].op.operationId != s.op.operationId
    ensures ToolName(ApiName, s.op.operationId.value) !in CatalogLookup(sites)
  {
    var key := ToolName(ApiName, s.op.operationId.value);
    if key in CatalogLookup(sites) {
      LookupEntryIsLastWithId(sites, key);
      var e := CatalogLookup(sites)[key];
      ToolNameInjective(ApiName, e.operation.operationId.value, s.op.operationId.value);
      assert false;
    }
  }

  /**
   * The entry under `API-<id>` is the last operation with that id, with the
   * verb key and path template it was found under.
   */
  lemma {:induction false} LookupEntryIsLastWithId(sites: seq<Site>, key: string)
    requires key in CatalogLookup(sites)
    ensures var e := CatalogLookup(sites)[key];
      && !Blank(e.operation.operationId)
      && key == ToolName(ApiName, e.operation.operationId.value)
      && exists i :: 0 <= i < |sites| && sites[i] == Site(e.path, e.verb, e.operation)
           && forall j :: i < j < |sites| ==> sites[j].op.operationId != e.operation.operationId
  {
    var init := sites[..|sites| - 1];
    var s := sites[|sites| - 1];
    var e := CatalogLookup(sites)[key];
    if ConvertOperation(s.op).Some? && key == ToolName(ApiName, s.op.operationId.value) {
      assert sites[|sites| - 1] == Site(e.path, e.verb, e.operation);
    } else {
      LookupEntryIsLastWithId(init, key);
      var i :| 0 <= i < |init| && init[i] == Site(e.path, e.verb, e.operation)
        && forall j :: i < j < |init| ==> init[j].op.operationId != e.operation.operationId;
      assert sites[i] == init[i];
      forall j | i < j < |sites| ensures sites[j].op.operationId != e.operation.operationId {
        if j < |init| {
          assert sites[j] == init[j];
        } else if s.op.operationId == e.operation.operationId {
          assert false;
        }
      }
    }
  }

  /**
   * The inner loop of the walk: convert each verb-keyed operation of one path
   * item, push its method and register it under `API-<name>`.
   */
  method AddPathItem(path: string, item: PathItem, ghost done: seq<Site>,
                     methods0: seq<MCPMethod>, lookup0: map<string, LookupEntry>)
    returns (methods: seq<MCPMethod>, lookup: map<string, LookupEntry>)
    requires methods0 == CatalogMethods(done) && lookup0 == CatalogLookup(done)
    ensures methods == CatalogMethods(done + ItemSites(path, item))
    ensures lookup == CatalogLookup(done + ItemSites(path, item))
  {
    methods, lookup := methods0, lookup0;
    var j := 0;
    assert done + ItemSites(path, item[..0]) == done;
    while j < |item|
      invariant 0 <= j <= |item|
      invariant methods == CatalogMethods(done + ItemSites(path, item[..j]))
      invariant lookup == CatalogLookup(done + ItemSites(path, item[..j]))
    {
      var verb := item[j].0;
      var field := item[j].1;
      ItemSitesPrefix(path, item, j);
      if IsOperation(verb) && field.OperationField? {
        var site := Site(path, verb, field.op);
        assert done + ItemSites(path, item[..j + 1]) == (done + ItemSites(path, item[..j])) + [site];
        CatalogSnoc(done + ItemSites(path, item[..j]), site);
        var m := ConvertOperationToMCPMethod(field.op, verb, path);
        if m.Some? {
          methods := methods + [m.value];
          lookup := lookup[ToolName(ApiName, m.value.name) := LookupEntry(field.op, verb, path)];
        }
      } else {
        assert done + ItemSites(path, item[..j + 1]) == done + ItemSites(path, item[..j]);
      }
      j := j + 1;
    }
    assert item[..j] == item;
  }

  /**
   * Walk `paths` in document order, skipping absent path items; every
   * verb-keyed operation with an id becomes a method under `API` and an entry
   * of the lookup under `API-<name>`.
   */
  method ConvertToMCPTools(doc: Document) returns (tools: Tools, lookup: map<string, LookupEntry>)
    ensures tools == [(ApiName, CatalogMethods(Sites(doc.paths)))]
    ensures lookup == CatalogLookup(Sites(doc.paths))
  {
    var methods: seq<MCPMethod> := [];
    lookup := map[];
    var i := 0;
    while i < |doc.paths|
      invariant 0 <= i <= |doc.paths|
      invariant methods == CatalogMethods(Sites(doc.paths[..i]))
      invariant lookup == CatalogLookup(Sites(doc.paths[..i]))
    {
      var path := doc.paths[i].0;
      var pathItem := doc.paths[i].1;
      SitesPrefix(doc.paths, i);
      if pathItem.Some? {
        methods, lookup := AddPathItem(path, pathItem.value, Sites(doc.paths[..i]), methods, lookup);
      } else {
        assert Sites(doc.paths[..i + 1]) == Sites(doc.paths[..i]);
      }
      i := i + 1;
    }
    assert doc.paths[..i] == doc.paths;
    tools := [(ApiName, methods)];
  }
}

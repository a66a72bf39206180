/**
 * The parts of an OpenAPI 3.x document that the core reads. Objects whose
 * entries are iterated keep their document order as a sequence of
 * (key, value) pairs; objects that are only looked up by key are maps.
 */
module OpenApi {
  import opened Wrappers

  /** A schema node: a bare `$ref`, or an inline schema object. */
  datatype Schema =
    | SchemaRef(ref: string)
    | SchemaObject(
        schemaType: Option<string>,
        description: Option<string>,
        properties: Option<seq<(string, Schema)>>,
        required: Option<seq<string>>)

  /** An entry of an operation's `parameters` array. */
  datatype Parameter =
    | ParameterRef(ref: string)
    | ParameterObject(
        name: string,
        location: string,          // the `in` field: path, query, header or cookie
        required: bool,            // absent counts as false
        description: Option<string>,
        schema: Option<Schema>)

  /** A media-type object of a `content` map. */
  datatype MediaType = MediaType(schema: Option<Schema>)

  datatype RequestBody =
    | RequestBodyRef(ref: string)
    | RequestBodyObject(content: map<string, MediaType>)

  datatype Response =
    | ResponseRef(ref: string)
    | ResponseObject(description: Option<string>, content: Option<map<string, MediaType>>)

  datatype Operation = Operation(
    operationId: Option<string>,
    summary: Option<string>,
    description: Option<string>,
    parameters: seq<Parameter>,          // an absent array is the empty one
    requestBody: Option<RequestBody>,
    responses: map<string, Response>)

  /**
   * A field of a path-item object. Fields such as `summary`, `servers` or
   * `parameters` are never read by the core beyond their key.
   */
  datatype PathItemField = OperationField(op: Operation) | OtherField

  type PathItem = seq<(string, PathItemField)>

  datatype Server = Server(url: Option<string>)

  datatype Document = Document(
    servers: Option<seq<Server>>,
    paths: seq<(string, Option<PathItem>)>)   // an absent `paths` object is the empty one

  /** JavaScript falsiness of an optional string: absent or empty. */
  predicate Blank(s: Option<string>) {
    s.None? || s.value == ""
  }

  /** `a || b` on optional strings. */
  function OrElse(a: Option<string>, b: string): (r: string)
    ensures !Blank(a) ==> r == a.value
    ensures Blank(a) ==> r == b
  {
    if Blank(a) then b else a.value
  }
}

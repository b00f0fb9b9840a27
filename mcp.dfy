/** The slice of the Model Context Protocol that the tool handlers produce and consume:
    `tools/list`, `tools/call`, `prompts/list` and `prompts/get` payloads, and the avatar commands a handler
    hands to the presentation side instead of awaiting them. */
module Mcp {
  import opened Base
  import opened Json

  datatype ContentBlock = TextBlock(text: string)

  /** `CallToolResult`: content blocks and the `isError` flag. */
  datatype CallToolResult = CallToolResult(content: seq<ContentBlock>, isError: bool)

  /** `Implementation`: the server's name and version, announced at initialisation. */
  datatype Implementation = Implementation(name: string, version: string)

  /** The server info all three servers announce. */
  const ServerInfo := Implementation("UnityMcpServer", "0.1.0")

  datatype Tool = Tool(name: string, description: string, inputSchema: JsonValue)

  /** `CallToolRequestParams`: the tool name and the argument map, which may be null. */
  datatype CallToolParams = CallToolParams(name: string, arguments: Option<map<string, JsonValue>>)

  /** A `tools/call` request as the handler sees it: `req.Params` may be null. */
  type CallToolRequest = Option<CallToolParams>

  /** A unit of avatar work started with `.Forget()`: the reply does not wait for it. */
  datatype AvatarCommand = SmileCommand | SpeakCommand(wav: seq<Byte>)

  /** What a handler does: returns a result, possibly after starting an avatar command, or
      lets an exception escape (what the protocol library then sends is not modelled). */
  datatype HandlerOutcome =
    | Handled(result: CallToolResult, command: Option<AvatarCommand>)
    | Faulted(exception: string)

  /** A single-text-block result. */
  function TextResult(text: string, isError: bool): (r: CallToolResult)
    ensures r.content == [TextBlock(text)] && r.isError == isError
  {
    CallToolResult([TextBlock(text)], isError)
  }

  /** The reply to a call no branch of a handler accepts. */
  const InvalidCall := TextResult("Invalid call", true)

  const NullReference := "NullReferenceException"
  const InvalidOperation := "InvalidOperationException"

  /** The echo branch shared by all three servers, once `message` is known to be present:
      `msgElem.GetString() ?? ""` prefixed with `hello `. */
  function EchoReply(message: JsonValue): (o: HandlerOutcome)
    ensures message.JString? ==> o == Handled(TextResult("hello " + message.s, false), None)
    ensures message.JNull? ==> o == Handled(TextResult("hello ", false), None)
    ensures !message.JString? && !message.JNull? ==> o == Faulted(InvalidOperation)
  {
    match GetString(message)
    case Str(s) => Handled(TextResult("hello " + s, false), None)
    case NullString => Handled(TextResult("hello ", false), None)
    case WrongKind => Faulted(InvalidOperation)
  }

  // ---------------------------------------------------------------------------------------
  // Input schemas

  /** `{"type":"object","properties":{<name>:{"type":"string"}},"required":[<name>]}` */
  function OneStringSchema(name: string, description: Option<string>): JsonValue
  {
    var property := match description
      case None => map["type" := JString("string")]
      case Some(d) => map["type" := JString("string"), "description" := JString(d)];
    JObject(map[
      "type" := JString("object"),
      "properties" := JObject(map[name := JObject(property)]),
      "required" := JArray([JString(name)])])
  }

  const EchoSchema := OneStringSchema("message", None)

  /** The fields listed under `required` in a schema. */
  function RequiredFields(schema: JsonValue): (r: seq<string>)
    ensures schema.JObject? && "required" in schema.fields && schema.fields["required"].JArray? ==>
              forall f :: f in r <==> JString(f) in schema.fields["required"].items
    ensures !(schema.JObject? && "required" in schema.fields) ==> r == []
  {
    if schema.JObject? && "required" in schema.fields && schema.fields["required"].JArray?
    then Strings(schema.fields["required"].items)
    else []
  }

  /** The declared `type` of a property, if the schema gives one. */
  function PropertyType(schema: JsonValue, field: string): Option<string>
  {
    if schema.JObject? && "properties" in schema.fields && schema.fields["properties"].JObject?
       && field in schema.fields["properties"].fields
       && schema.fields["properties"].fields[field].JObject?
       && "type" in schema.fields["properties"].fields[field].fields
       && schema.fields["properties"].fields[field].fields["type"].JString?
    then Some(schema.fields["properties"].fields[field].fields["type"].s)
    else None
  }

  /** Arguments a client that honours the schema would send: every required field present,
      and a string wherever the schema says `"type":"string"`. */
  predicate Conforms(schema: JsonValue, args: map<string, JsonValue>)
  {
    forall f :: f in RequiredFields(schema) ==>
      f in args && (PropertyType(schema, f) == Some("string") ==> args[f].JString?)
  }

  /** The names of a tool list, in order. */
  function Names(tools: seq<Tool>): (r: seq<string>)
    ensures |r| == |tools| && forall i :: 0 <= i < |r| ==> r[i] == tools[i].name
  {
    if tools == [] then [] else [tools[0].name] + Names(tools[1..])
  }
}

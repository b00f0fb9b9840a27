/** The echo-only handler table of the stdio server. */
module StdioEchoServer {
  import opened Base
  import opened Json
  import opened Mcp
  import StreamServer
  import Voicevox

  /** `ListToolsHandler`: the single `echo` tool. */
  function ListTools(): (tools: seq<Tool>)
    ensures Names(tools) == ["echo"] && RequiredFields(tools[0].inputSchema) == ["message"]
  {
    [Tool("echo", "Echoes a message", EchoSchema)]
  }

  /** `CallToolHandler`: `echo` with a `message` argument, or `Invalid call`. */
  function CallTool(req: CallToolRequest): (o: HandlerOutcome)
    ensures o.Handled? ==> |o.result.content| == 1 && o.command.None?
    ensures o == Handled(InvalidCall, None) <==>
              req.None? || req.value.name != "echo"
              || (req.value.arguments.Some? && "message" !in req.value.arguments.value)
  {
    if req.Some? && req.value.name == "echo" && req.value.arguments.None? then Faulted(NullReference)
    else if req.Some? && req.value.name == "echo" && "message" in req.value.arguments.value then
      EchoReply(req.value.arguments.value["message"])
    else Handled(InvalidCall, None)
  }

  /** The stream server answers every request this server answers the same way; it differs
      only on its two avatar tools. */
  lemma StreamServerExtendsEcho(req: CallToolRequest, tts: Voicevox.TtsResult, avatar: StreamServer.AvatarAccess)
    requires req.Some? ==> req.value.name != StreamServer.SmileName && req.value.name != StreamServer.SpeakName
    ensures StreamServer.CallTool(req, tts, avatar) == StreamServer.Dispatch(CallTool(req), None)
  {
  }
}

/** The echo-only handler table of the streamable-HTTP server: the same table as the stdio
    server's, declared again in its own source file. */
module HttpEchoServer {
  import opened Base
  import opened Json
  import opened Mcp
  import StdioEchoServer

  /** `ListToolsHandler`: the single `echo` tool. */
  function ListTools(): (tools: seq<Tool>)
    ensures Names(tools) == ["echo"] && RequiredFields(tools[0].inputSchema) == ["message"]
  {
    [Tool("echo", "Echoes a message", EchoSchema)]
  }

  /** `CallToolHandler`: `echo` with a `message` argument, or `Invalid call`. */
  function CallTool(req: CallToolRequest): (o: HandlerOutcome)
    ensures o.Handled? ==> |o.result.content| == 1 && o.command.None?
    ensures req.Some? && req.value.name == "echo" && req.value.arguments.Some?
            && "message" in req.value.arguments.value && req.value.arguments.value["message"].JString?
            ==> o == Handled(TextResult("hello " + req.value.arguments.value["message"].s, false), None)
  {
    if req.Some? && req.value.name == "echo" && req.value.arguments.None? then Faulted(NullReference)
    else if req.Some? && req.value.name == "echo" && "message" in req.value.arguments.value then
      EchoReply(req.value.arguments.value["message"])
    else Handled(InvalidCall, None)
  }

  /** The two echo servers are interchangeable. */
  lemma SameAsStdioServer(req: CallToolRequest)
    ensures CallTool(req) == StdioEchoServer.CallTool(req)
    ensures ListTools() == StdioEchoServer.ListTools()
  {
  }
}

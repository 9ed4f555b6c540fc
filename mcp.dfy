/** The permission adapter: a Model Context Protocol server over JSON-RPC 2.0, one JSON
    message per line, that offers the agent CLI a single "approve" tool and forwards each
    call to the coordinator's approval endpoint. The HTTP call is the function
    `callback`, JSON encoding is `dumps` and decoding is `loads`. */
module Mcp {
  import opened Wrappers
  import opened JsonValue
  import Text
  import Cli

  /** The adapter's configuration, fixed once from its command line. */
  datatype Config = Config(agentId: string, callbackUrl: string, cwd: string)

  /** `main()`: the agent id, the callback endpoint and the working directory are the
      first three arguments after the script; with fewer the adapter exits with an error. */
  function ParseArgs(argv: seq<string>): (r: Option<Config>)
    ensures r.Some? <==> |argv| >= 4
  {
    if |argv| < 4 then None else Some(Config(argv[1], argv[2], argv[3]))
  }

  /** The coordinator's configuration for an agent starts the adapter with exactly that
      agent's id, the coordinator's approval endpoint and the project directory. */
  lemma ParseArgsOfPeer(script: string, agentId: string, port: int, cwd: string)
    ensures ParseArgs(Cli.PeerArgs(script, agentId, port, cwd)) == Some(Config(agentId, Cli.CallbackUrl(port), cwd))
  {
  }

  /** The protocol revision the adapter speaks. */
  const ProtocolVersion: string := "2024-11-05"

  /** "Method not found", section 5.1 of the JSON-RPC 2.0 specification. */
  const MethodNotFound: int := -32601

  /** `r` is a JSON-RPC 2.0 response to the request `id`: it carries the version and
      that id, and exactly one of a result and an error. */
  predicate IsResponse(r: Json, id: Json) {
    && r.Obj? && "jsonrpc" in r.fields && r.fields["jsonrpc"] == Str("2.0")
    && "id" in r.fields && r.fields["id"] == id
    && (("result" in r.fields) != ("error" in r.fields))
  }

  /** A success response to the request `id`. */
  function Reply(id: Json, result: Json): (r: Json)
    ensures IsResponse(r, id) && "result" in r.fields && r.fields["result"] == result
  {
    Obj(map["jsonrpc" := Str("2.0"), "id" := id, "result" := result])
  }

  /** An error response to the request `id`. */
  function ErrorReply(id: Json, code: int, message: string): (r: Json)
    ensures IsResponse(r, id) && "error" in r.fields
    ensures r.fields["error"] == Obj(map["code" := Num(code), "message" := Str(message)])
  {
    Obj(map["jsonrpc" := Str("2.0"), "id" := id,
            "error" := Obj(map["code" := Num(code), "message" := Str(message)])])
  }

  /** `handle_initialize`: the protocol revision, tools as the only capability, and the
      server's name and version. */
  function InitializeReply(id: Json): Json {
    Reply(id, Obj(map[
      "protocolVersion" := Str(ProtocolVersion),
      "capabilities" := Obj(map["tools" := EmptyObj]),
      "serverInfo" := Obj(map["name" := Str("ceo-dashboard-permissions"), "version" := Str("1.0.0")])]))
  }

  /** The input schema of the "approve" tool. */
  const ApproveSchema: Json := Obj(map[
    "type" := Str("object"),
    "properties" := Obj(map[
      "tool_name" := Obj(map["type" := Str("string"), "description" := Str("The tool requesting permission")]),
      "input" := Obj(map["type" := Str("object"), "description" := Str("The input for the tool"),
                         "additionalProperties" := Bool(true)])]),
    "required" := Arr([Str("tool_name"), Str("input")])])

  /** `handle_tools_list`: the single "approve" tool. */
  function ToolsListReply(id: Json): Json {
    Reply(id, Obj(map["tools" := Arr([Obj(map[
      "name" := Str("approve"),
      "description" := Str("Request permission to use a tool"),
      "inputSchema" := ApproveSchema])])]))
  }

  /** A tool result whose one content block is the text `text`. */
  function TextResult(id: Json, text: string): Json {
    Reply(id, Obj(map["content" := Arr([Obj(map["type" := Str("text"), "text" := Str(text)])])]))
  }

  /** The decision the adapter answers with when the coordinator could not be asked. */
  function ErrorDecision(e: string): Json {
    Obj(map["behavior" := Str("deny"), "message" := Str("Permission server error: " + e)])
  }

  /** What a message gets: a response line, nothing, or nothing because Python raised
      (the read loop catches it and goes on). */
  datatype Outcome = Send(response: Json) | Silent | Raises

  /** The body the adapter posts to the coordinator for an approval. */
  function ApprovalBody(cfg: Config, arguments: map<string, Json>): Json {
    Obj(map["agent_id" := Str(cfg.agentId),
            "tool_name" := Lookup(arguments, "tool_name", Str("unknown")),
            "input" := Lookup(arguments, "input", EmptyObj),
            "cwd" := Str(cfg.cwd)])
  }

  /** `handle_tools_call`. Params or arguments that are not a dictionary make Python
      raise; a failed call to the coordinator is answered with a deny decision. */
  function ToolsCall(cfg: Config, id: Json, params: Json, callback: Json -> Result<Json, string>,
                     dumps: Json -> string): Outcome
  {
    match params
    case Obj(p) =>
      var name := Lookup(p, "name", Str(""));
      if name != Str("approve") then Send(ErrorReply(id, MethodNotFound, "Unknown tool: " + Display(name)))
      else
        (match Lookup(p, "arguments", EmptyObj)
         case Obj(arguments) =>
           (match callback(ApprovalBody(cfg, arguments))
            case Success(decision) => Send(TextResult(id, dumps(decision)))
            case Failure(e) => Send(TextResult(id, dumps(ErrorDecision(e)))))
         case _ => Raises)
    case _ => Raises
  }

  /** `handle_message`: the router. A message without an id (or with a null one) is a
      notification and gets no response. */
  function HandleMessage(cfg: Config, message: Json, callback: Json -> Result<Json, string>,
                         dumps: Json -> string): Outcome
  {
    match message
    case Obj(m) =>
      var rpcMethod := Lookup(m, "method", Str(""));
      var params := Lookup(m, "params", EmptyObj);
      var id := Lookup(m, "id", Null);
      if id == Null then Silent
      else if rpcMethod == Str("initialize") then Send(InitializeReply(id))
      else if rpcMethod == Str("notifications/initialized") then Silent
      else if rpcMethod == Str("tools/list") then Send(ToolsListReply(id))
      else if rpcMethod == Str("tools/call") then ToolsCall(cfg, id, params, callback, dumps)
      else Send(ErrorReply(id, MethodNotFound, "Method not found: " + Display(rpcMethod)))
    case _ => Raises
  }

  /** `run_server` on one input line: the response line to write, if any. */
  function ServeLine(cfg: Config, line: string, loads: string -> Option<Json>,
                     callback: Json -> Result<Json, string>, dumps: Json -> string): Option<string>
  {
    var stripped := Text.Strip(line);
    if stripped == "" then None
    else
      match loads(stripped)
      case None => None
      case Some(message) =>
        match HandleMessage(cfg, message, callback, dumps)
        case Send(response) => Some(dumps(response))
        case _ => None
  }

  /** The skip rules of the read loop: a blank line, a line that is not JSON, a
      notification and a message Python fails on produce no output; every other message
      produces exactly its encoded response. */
  lemma ServeLineSkips(cfg: Config, line: string, loads: string -> Option<Json>,
                       callback: Json -> Result<Json, string>, dumps: Json -> string)
    ensures Text.AllSpace(line) ==> ServeLine(cfg, line, loads, callback, dumps).None?
    ensures !Text.AllSpace(line) && loads(Text.Strip(line)).None? ==> ServeLine(cfg, line, loads, callback, dumps).None?
    ensures !Text.AllSpace(line) && loads(Text.Strip(line)).Some? ==>
      var outcome := HandleMessage(cfg, loads(Text.Strip(line)).value, callback, dumps);
      ServeLine(cfg, line, loads, callback, dumps) == (if outcome.Send? then Some(dumps(outcome.response)) else None)
  {
  }

  /** Every response is a JSON-RPC 2.0 response to the message's own id, with exactly
      one of a result and an error, and only a message with a non-null id gets one. */
  lemma ResponseEnvelope(cfg: Config, message: Json, callback: Json -> Result<Json, string>,
                         dumps: Json -> string)
    requires HandleMessage(cfg, message, callback, dumps).Send?
    ensures && message.Obj? && Lookup(message.fields, "id", Null) != Null
            && IsResponse(HandleMessage(cfg, message, callback, dumps).response, message.fields["id"])
  {
  }

  /** A message without an id, or with a null one, is never answered, and neither is
      the client's initialized notification even when it carries an id. */
  lemma NotificationsSilent(cfg: Config, m: map<string, Json>, callback: Json -> Result<Json, string>,
                            dumps: Json -> string)
    ensures Lookup(m, "id", Null) == Null ==> HandleMessage(cfg, Obj(m), callback, dumps) == Silent
    ensures Lookup(m, "method", Str("")) == Str("notifications/initialized") ==>
      HandleMessage(cfg, Obj(m), callback, dumps) == Silent
  {
  }

  /** The initialize response names protocol revision 2024-11-05 and tools as its only
      capability. */
  lemma InitializeSpec(id: Json)
    ensures var result := InitializeReply(id).fields["result"];
      && result.Obj?
      && result.fields["protocolVersion"] == Str("2024-11-05")
      && result.fields["capabilities"] == Obj(map["tools" := EmptyObj])
      && result.fields["capabilities"].fields.Keys == {"tools"}
  {
  }

  /** The tool list holds exactly one tool, "approve", whose input schema requires the
      tool name and its input. */
  lemma ToolsListSpec(id: Json)
    ensures var tools := ToolsListReply(id).fields["result"].fields["tools"];
      && tools.Arr? && |tools.items| == 1
      && tools.items[0].Obj?
      && tools.items[0].fields["name"] == Str("approve")
      && tools.items[0].fields["inputSchema"].fields["required"] == Arr([Str("tool_name"), Str("input")])
  {
  }

  /** Unknown methods and unknown tools are answered with the "Method not found" error,
      naming what was asked for. */
  lemma UnknownRequests(cfg: Config, m: map<string, Json>, callback: Json -> Result<Json, string>,
                        dumps: Json -> string)
    requires Lookup(m, "id", Null) != Null
    ensures var rpcMethod := Lookup(m, "method", Str(""));
      rpcMethod != Str("initialize") && rpcMethod != Str("notifications/initialized")
      && rpcMethod != Str("tools/list") && rpcMethod != Str("tools/call") ==>
      HandleMessage(cfg, Obj(m), callback, dumps)
        == Send(ErrorReply(m["id"], -32601, "Method not found: " + Display(rpcMethod)))
    ensures var params := Lookup(m, "params", EmptyObj);
      Lookup(m, "method", Str("")) == Str("tools/call") && params.Obj?
      && Lookup(params.fields, "name", Str("")) != Str("approve") ==>
      HandleMessage(cfg, Obj(m), callback, dumps)
        == Send(ErrorReply(m["id"], -32601, "Unknown tool: " + Display(Lookup(params.fields, "name", Str("")))))
  {
  }

  /** An "approve" call posts the agent's id, the tool name (or "unknown"), the tool
      input (or {}) and the working directory, and a decision the coordinator returns is
      passed on as the text of the one content block. */
  lemma ApproveForwards(cfg: Config, id: Json, arguments: map<string, Json>,
                        callback: Json -> Result<Json, string>, dumps: Json -> string)
    requires id != Null
    requires callback(ApprovalBody(cfg, arguments)).Success?
    ensures var body := ApprovalBody(cfg, arguments);
      && body.fields["agent_id"] == Str(cfg.agentId) && body.fields["cwd"] == Str(cfg.cwd)
      && ("tool_name" !in arguments ==> body.fields["tool_name"] == Str("unknown"))
      && ("input" !in arguments ==> body.fields["input"] == EmptyObj)
      && ToolsCall(cfg, id, Obj(map["name" := Str("approve"), "arguments" := Obj(arguments)]), callback, dumps)
         == Send(TextResult(id, dumps(callback(body).value)))
  {
  }

  /** Fail closed: when the coordinator cannot be asked, the call still gets a result,
      not an error, and that result is a deny decision carrying the error text; the
      adapter never allows on its own. */
  lemma FailClosed(cfg: Config, id: Json, params: Json, callback: Json -> Result<Json, string>,
                   dumps: Json -> string)
    requires params.Obj? && Lookup(params.fields, "name", Str("")) == Str("approve")
    requires Lookup(params.fields, "arguments", EmptyObj).Obj?
    requires callback(ApprovalBody(cfg, Lookup(params.fields, "arguments", EmptyObj).fields)).Failure?
    ensures var e := callback(ApprovalBody(cfg, Lookup(params.fields, "arguments", EmptyObj).fields)).error;
      var outcome := ToolsCall(cfg, id, params, callback, dumps);
      && outcome.Send?
      && "result" in outcome.response.fields && "error" !in outcome.response.fields
      && outcome == Send(TextResult(id, dumps(ErrorDecision(e))))
      && ErrorDecision(e).fields["behavior"] == Str("deny")
      && ErrorDecision(e).fields["message"] == Str("Permission server error: " + e)
  {
  }

  /** Every response the adapter gives to an "approve" call carries, as its text, either
      the coordinator's decision or a deny decision. */
  lemma ApproveAnswers(cfg: Config, id: Json, params: Json, callback: Json -> Result<Json, string>,
                       dumps: Json -> string)
    requires params.Obj? && Lookup(params.fields, "name", Str("")) == Str("approve")
    requires ToolsCall(cfg, id, params, callback, dumps).Send?
    ensures var arguments := Lookup(params.fields, "arguments", EmptyObj).fields;
      var outcome := callback(ApprovalBody(cfg, arguments));
      ToolsCall(cfg, id, params, callback, dumps).response
        == TextResult(id, dumps(if outcome.Success? then outcome.value else ErrorDecision(outcome.error)))
  {
  }
}

/**
  The JSON-RPC router `process_mcp_message` (app.py:312-335): it reads `method`,
  `params` and `id` from a message and answers `initialize`, `tools/list`,
  `tools/call` and `notifications/initialized`, and reports any other method as
  not found. Every answer echoes the request id.

  An exception escaping the router (a message or `params` that is not a dict) is
  the outcome `Raised`, carrying the exception's text.
*/
module Mcp {
  import opened Wrappers
  import opened Json
  import opened Vercel
  import opened Registry
  import opened Dispatcher

  /** What `process_mcp_message` does with a message: returns a response, or raises. */
  datatype Outcome = Reply(response: Json) | Raised(message: string)

  /** The JSON-RPC error code for an unknown method. */
  const MethodNotFoundCode: int := -32601

  /** The protocol version announced by `initialize`. */
  const ProtocolVersion: string := "2024-11-05"

  /** `{"jsonrpc": "2.0", "id": id, member: body}` */
  function Envelope(id: Json, member: string, body: Json): (r: Json)
    requires member != "jsonrpc" && member != "id"
    ensures r.JObj? && Keys(r.fields) == {"jsonrpc", "id", member}
    ensures Get(r.fields, "jsonrpc") == Some(JStr("2.0"))
    ensures Get(r.fields, "id") == Some(id)
    ensures Get(r.fields, member) == Some(body)
  {
    var fields := [("jsonrpc", JStr("2.0")), ("id", id), (member, body)];
    Unfold(fields); Unfold(fields[1..]); Unfold(fields[2..]);
    JObj(fields)
  }

  /** The fixed result of `initialize`. */
  function InitializeResult(): Json {
    JObj([("protocolVersion", JStr(ProtocolVersion)),
          ("capabilities", JObj([("tools", JObj([("listChanged", JBool(true))]))])),
          ("serverInfo", JObj([("name", JStr("vercel-mcp")), ("version", JStr("1.0.0"))]))])
  }

  /** The result of `tools/list`: the registry, unchanged. */
  function ToolsListResult(): Json {
    JObj([("tools", ToolsJson())])
  }

  /** The error member for a method the router does not know. */
  function MethodNotFound(requested: Json): Json {
    JObj([("code", JInt(MethodNotFoundCode)), ("message", JStr("Method not found: " + Str(requested)))])
  }

  /** The methods the router answers. */
  const KnownMethods: seq<string> := ["initialize", "tools/list", "tools/call", "notifications/initialized"]

  /** The request id a message carries, 1 when it has none. */
  function RequestId(data: Dict): Json {
    ArgOr(data, "id", JInt(1))
  }

  /** The method a message names, `""` when it names none. */
  function MethodOf(data: Dict): Json {
    ArgOr(data, "method", JStr(""))
  }

  /** What the router decides to do with a message. */
  datatype Action =
    | Reject(message: string)
    | Initialize(id: Json)
    | ListTools(id: Json)
    | CallTool(id: Json, name: Json, arguments: Json)
    | Acknowledge(id: Json)
    | NotFound(id: Json, requested: Json)

  /**
    The branch `process_mcp_message` takes (app.py:313-335). Reading `method`, `params`
    and `id` from a message that is not a dict raises, and so does reading `name`
    from `params` that are not a dict.
  */
  function Route(data: Json): (a: Action)
    ensures data.JObj? && !a.Reject? ==> IdOf(a) == RequestId(data.fields)
    ensures a.NotFound? ==>
              data.JObj? && a.requested == MethodOf(data.fields)
              && !(a.requested.JStr? && a.requested.s in KnownMethods)
  {
    if !data.JObj? then Reject(NoGetMessage(TypeName(data)))
    else
      var requested := MethodOf(data.fields);
      var params := ArgOr(data.fields, "params", JObj([]));
      var id := RequestId(data.fields);
      if requested == JStr("initialize") then Initialize(id)
      else if requested == JStr("tools/list") then ListTools(id)
      else if requested == JStr("tools/call") then
        if !params.JObj? then Reject(NoGetMessage(TypeName(params)))
        else CallTool(id, ArgOr(params.fields, "name", JStr("")), ArgOr(params.fields, "arguments", JObj([])))
      else if requested == JStr("notifications/initialized") then Acknowledge(id)
      else NotFound(id, requested)
  }

  /** The outcome of an action, for a backend that has already sent `history`. */
  function Answer(action: Action, teamId: string, server: Server, history: seq<HttpRequest>,
                  dumps: Json -> string): Outcome
  {
    match action
    case Reject(message) => Raised(message)
    case Initialize(id) => Reply(Envelope(id, "result", InitializeResult()))
    case ListTools(id) => Reply(Envelope(id, "result", ToolsListResult()))
    case CallTool(id, name, arguments) =>
      Reply(Envelope(id, "result", ToolCallResult(name, arguments, teamId, server, history, dumps)))
    case Acknowledge(id) => Reply(Envelope(id, "result", JObj([])))
    case NotFound(id, requested) => Reply(Envelope(id, "error", MethodNotFound(requested)))
  }

  /** The outcome of `process_mcp_message(data)` for a backend that has already sent `history`. */
  function MessageOutcome(data: Json, teamId: string, server: Server, history: seq<HttpRequest>,
                          dumps: Json -> string): Outcome
  {
    Answer(Route(data), teamId, server, history, dumps)
  }

  /** The requests `process_mcp_message(data)` sends to the network. */
  function MessageCalls(data: Json, teamId: string): seq<HttpRequest> {
    match Route(data)
    case CallTool(_, name, arguments) => CallsMade(name, arguments, teamId)
    case _ => []
  }

  /** `process_mcp_message(data)` against `backend`. */
  method ProcessMessage(data: Json, backend: Backend, dumps: Json -> string) returns (outcome: Outcome)
    modifies backend`log
    ensures backend.log == old(backend.log) + MessageCalls(data, backend.teamId)
    ensures outcome == MessageOutcome(data, backend.teamId, backend.server, old(backend.log), dumps)
  {
    var action := Route(data);
    match action
    case CallTool(id, name, arguments) =>
      var result := HandleToolCall(name, arguments, backend, dumps);
      outcome := Reply(Envelope(id, "result", result));
    case _ =>
      outcome := Answer(action, backend.teamId, backend.server, backend.log, dumps);
  }

  // ---------------------------------------------------------------------------
  // Properties

  /** The request id an action answers under. */
  function IdOf(action: Action): Json
    requires !action.Reject?
  {
    match action
    case Initialize(id) => id
    case ListTools(id) => id
    case CallTool(id, _, _) => id
    case Acknowledge(id) => id
    case NotFound(id, _) => id
  }

  /**
    The router rejects exactly the messages that are not a dict and the `tools/call`
    messages whose `params` are not a dict, with the message of the failed `.get`;
    every other message is answered under its own id, 1 when it has none.
  */
  lemma RouteRejectsOnlyNonObjects(data: Json)
    ensures !data.JObj? ==> Route(data) == Reject(NoGetMessage(TypeName(data)))
    ensures data.JObj? ==>
              var params := ArgOr(data.fields, "params", JObj([]));
              && (Route(data).Reject? <==> MethodOf(data.fields) == JStr("tools/call") && !params.JObj?)
              && (Route(data).Reject? ==> Route(data).message == NoGetMessage(TypeName(params)))
              && (!Route(data).Reject? ==> IdOf(Route(data)) == RequestId(data.fields))
  {
  }

  /** A method the router does not know, and only such a method, is routed to NotFound. */
  lemma RouteNotFoundIffUnknown(data: Dict)
    ensures Route(JObj(data)).NotFound? <==> !(MethodOf(data).JStr? && MethodOf(data).s in KnownMethods)
    ensures Route(JObj(data)).NotFound? ==> Route(JObj(data)).requested == MethodOf(data)
  {
  }

  /**
    Every action but a rejection is answered with a JSON-RPC 2.0 envelope under the
    action's id, carrying `error` for an unknown method and `result` otherwise.
  */
  lemma AnswerIsEnvelope(action: Action, teamId: string, server: Server, history: seq<HttpRequest>,
                         dumps: Json -> string)
    ensures var outcome := Answer(action, teamId, server, history, dumps);
            && (outcome.Raised? <==> action.Reject?)
            && (action.Reject? ==> outcome.message == action.message)
            && (!action.Reject? ==>
                  && outcome.response.JObj?
                  && Get(outcome.response.fields, "jsonrpc") == Some(JStr("2.0"))
                  && Get(outcome.response.fields, "id") == Some(IdOf(action))
                  && ("error" in Keys(outcome.response.fields) <==> action.NotFound?)
                  && ("result" in Keys(outcome.response.fields) <==> !action.NotFound?))
  {
    match action
    case Reject(_) =>
    case Initialize(id) =>
    case ListTools(id) =>
    case CallTool(id, name, arguments) =>
    case Acknowledge(id) =>
    case NotFound(id, requested) =>
  }

  /**
    Every response echoes the request's id (1 when the message has none) and carries
    `error` exactly when the method is unknown, `result` otherwise.
  */
  lemma ResponseEchoesId(data: Json, teamId: string, server: Server, history: seq<HttpRequest>,
                         dumps: Json -> string)
    ensures var outcome := MessageOutcome(data, teamId, server, history, dumps);
            outcome.Reply? ==>
              && data.JObj?
              && outcome.response.JObj?
              && Get(outcome.response.fields, "jsonrpc") == Some(JStr("2.0"))
              && Get(outcome.response.fields, "id") == Some(RequestId(data.fields))
              && ("id" !in Keys(data.fields) ==> Get(outcome.response.fields, "id") == Some(JInt(1)))
              && var keys := Keys(outcome.response.fields);
                 && ("error" in keys <==> !(MethodOf(data.fields).JStr? && MethodOf(data.fields).s in KnownMethods))
                 && ("result" in keys <==> "error" !in keys)
  {
    RouteRejectsOnlyNonObjects(data);
    AnswerIsEnvelope(Route(data), teamId, server, history, dumps);
    if data.JObj? { RouteNotFoundIffUnknown(data.fields); }
  }

  /** The error member of an unknown method carries the code -32601 and names the method. */
  lemma MethodNotFoundReads(requested: Json)
    ensures var error := MethodNotFound(requested);
            && Get(error.fields, "code") == Some(JInt(-32601))
            && Get(error.fields, "message") == Some(JStr("Method not found: " + Str(requested)))
  {
    Unfold(MethodNotFound(requested).fields);
  }

  /** A method the router does not know gets the error naming it, and no request is sent. */
  lemma UnknownMethodNotFound(data: Dict, teamId: string, server: Server, history: seq<HttpRequest>,
                              dumps: Json -> string)
    requires !(MethodOf(data).JStr? && MethodOf(data).s in KnownMethods)
    ensures var outcome := MessageOutcome(JObj(data), teamId, server, history, dumps);
            && outcome.Reply?
            && "result" !in Keys(outcome.response.fields)
            && Get(outcome.response.fields, "error") == Some(MethodNotFound(MethodOf(data)))
    ensures MessageCalls(JObj(data), teamId) == []
  {
    RouteNotFoundIffUnknown(data);
    AnswerIsEnvelope(Route(JObj(data)), teamId, server, history, dumps);
  }

  /**
    `tools/list` answers the registry unchanged and sends nothing, so any two
    `tools/list` messages with the same id get the same response, whatever was sent before.
  */
  lemma ToolsListStable(data: Dict, data': Dict, teamId: string, server: Server, history: seq<HttpRequest>,
                        teamId': string, server': Server, history': seq<HttpRequest>, dumps: Json -> string)
    requires MethodOf(data) == JStr("tools/list") && MethodOf(data') == JStr("tools/list")
    requires RequestId(data) == RequestId(data')
    ensures var outcome := MessageOutcome(JObj(data), teamId, server, history, dumps);
            && outcome.Reply?
            && Get(outcome.response.fields, "result") == Some(JObj([("tools", ToolsJson())]))
            && outcome == MessageOutcome(JObj(data'), teamId', server', history', dumps)
    ensures MessageCalls(JObj(data), teamId) == []
  {
    assert Route(JObj(data)) == ListTools(RequestId(data)) == Route(JObj(data'));
  }

  /**
    `tools/call` with a dict of `params` hands `name` (default `""`) and `arguments`
    (default `{}`) to the dispatcher, answers its result under the request id, and
    sends exactly the requests the dispatcher sends.
  */
  lemma ToolsCallForwards(data: Dict, params: Dict, teamId: string, server: Server,
                          history: seq<HttpRequest>, dumps: Json -> string)
    requires MethodOf(data) == JStr("tools/call")
    requires ArgOr(data, "params", JObj([])) == JObj(params)
    ensures var name := ArgOr(params, "name", JStr(""));
            var arguments := ArgOr(params, "arguments", JObj([]));
            var outcome := MessageOutcome(JObj(data), teamId, server, history, dumps);
            && outcome.Reply?
            && Get(outcome.response.fields, "id") == Some(RequestId(data))
            && Get(outcome.response.fields, "result") == Some(ToolCallResult(name, arguments, teamId, server, history, dumps))
            && MessageCalls(JObj(data), teamId) == CallsMade(name, arguments, teamId)
  {
    var name := ArgOr(params, "name", JStr(""));
    var arguments := ArgOr(params, "arguments", JObj([]));
    assert Route(JObj(data)) == CallTool(RequestId(data), name, arguments);
  }

  /** Only `tools/call` sends requests, and it sends at most one. */
  lemma OnlyToolCallsSend(data: Json, teamId: string)
    ensures |MessageCalls(data, teamId)| <= 1
    ensures MessageCalls(data, teamId) != [] ==> data.JObj? && MethodOf(data.fields) == JStr("tools/call")
  {
    match Route(data)
    case CallTool(_, name, arguments) => OneCallPerToolCall(name, arguments, teamId);
    case _ =>
  }

  /** `initialize` answers the fixed server descriptor and sends nothing. */
  lemma InitializeFixed(data: Dict, teamId: string, server: Server, history: seq<HttpRequest>,
                        dumps: Json -> string)
    requires MethodOf(data) == JStr("initialize")
    ensures MessageOutcome(JObj(data), teamId, server, history, dumps)
              == Reply(Envelope(RequestId(data), "result", InitializeResult()))
    ensures MessageCalls(JObj(data), teamId) == []
  {
    assert Route(JObj(data)) == Initialize(RequestId(data));
  }

  /** `notifications/initialized` is answered with the empty result `{}` and sends nothing. */
  lemma InitializedAcknowledged(data: Dict, teamId: string, server: Server, history: seq<HttpRequest>,
                                dumps: Json -> string)
    requires MethodOf(data) == JStr("notifications/initialized")
    ensures MessageOutcome(JObj(data), teamId, server, history, dumps)
              == Reply(Envelope(RequestId(data), "result", JObj([])))
    ensures MessageCalls(JObj(data), teamId) == []
  {
    assert Route(JObj(data)) == Acknowledge(RequestId(data));
  }

  /**
    What `tools/list` advertises is what `tools/call` enforces: the `i`-th tool listed
    names the `i`-th registered tool, and a call of that tool with a dict of arguments
    fails locally exactly when one of the keys listed under its `required` is absent.
  */
  lemma ListedRequirementsEnforced(i: nat, args: Dict)
    requires i < |Tools|
    ensures var listed := ToolsListResult().fields[0].1.items[i];
            var advertised := Advertised(listed).GetOr([]);
            && Get(listed.fields, "name") == Some(JStr(Tools[i].name))
            && (BuildRequest(JStr(Tools[i].name), JObj(args)).Faulted? <==>
                exists k :: k in advertised && k !in Keys(args))
  {
    MissingRequiredFaults(i, args);
  }
}

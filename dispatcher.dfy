/**
  The tool dispatcher `handle_tool_call` (app.py:236-310): it turns a tool name and
  its arguments into one call of the backend client, and wraps the outcome as MCP
  tool-call content.

  Shaping the request is a pure function per tool (`BuildRequest`); the call itself is
  `HandleToolCall`, a method on a `Backend` whose log records what reached the network.
  `json.dumps` is the parameter `dumps`.
*/
module Dispatcher {
  import opened Wrappers
  import opened Json
  import opened Vercel
  import opened Registry

  /** One call of `vercel_request`: method, endpoint, `data` and `params`. */
  datatype VercelCall = VercelCall(verb: string, endpoint: string, data: Option<Json>, params: Option<Dict>)

  /**
    An exception raised while shaping the arguments: a missing key (KeyError), or
    arguments that are not a dict (AttributeError from `.get`, TypeError from `[...]`).
  */
  datatype Fault = MissingKey(key: string) | NoGet(typeName: string) | NotSubscriptable(typeName: string)

  /** What the dispatcher makes of a tool name and arguments. */
  datatype Shaped = UnknownTool | Faulted(fault: Fault) | Ready(call: VercelCall)

  /** `str(e)` for the exception a fault stands for. */
  function FaultText(f: Fault): (r: string)
    ensures f.MissingKey? ==> r == Repr(JStr(f.key))
    ensures r != ""
  {
    match f
    case MissingKey(key) => "'" + key + "'"
    case NoGet(t) => NoGetMessage(t)
    case NotSubscriptable(t) =>
      if t == "list" then "list indices must be integers or slices, not str"
      else if t == "str" then "string indices must be integers, not 'str'"
      else "'" + t + "' object is not subscriptable"
  }

  /** `args[key]` */
  function Index(args: Json, key: string): (r: Result<Json, Fault>)
    ensures args.JObj? && key in Keys(args.fields) ==> r == Ok(Get(args.fields, key).value)
    ensures args.JObj? && key !in Keys(args.fields) ==> r == Err(MissingKey(key))
    ensures !args.JObj? ==> r.Err? && !r.error.MissingKey?
  {
    if !args.JObj? then Err(NotSubscriptable(TypeName(args)))
    else match Get(args.fields, key)
      case Some(v) => Ok(v)
      case None => Err(MissingKey(key))
  }

  /** `args.get(key, default)` */
  function Lookup(args: Json, key: string, default: Json): (r: Result<Json, Fault>)
    ensures args.JObj? && key in Keys(args.fields) ==> r == Ok(Get(args.fields, key).value)
    ensures args.JObj? && key !in Keys(args.fields) ==> r == Ok(default)
    ensures !args.JObj? ==> r.Err? && !r.error.MissingKey?
  {
    if !args.JObj? then Err(NoGet(TypeName(args)))
    else Ok(Get(args.fields, key).GetOr(default))
  }

  /** The value an argument takes when given, or the default when absent. */
  function ArgOr(args: Dict, key: string, default: Json): (v: Json)
    ensures key in Keys(args) ==> Some(v) == Get(args, key)
    ensures key !in Keys(args) ==> v == default
  {
    Get(args, key).GetOr(default)
  }

  /** `target` of a new environment variable when the caller gives none. */
  const DefaultTargets: Json := JArr([JStr("production"), JStr("preview"), JStr("development")])

  function Lift(r: Result<VercelCall, Fault>): Shaped {
    match r
    case Ok(call) => Ready(call)
    case Err(f) => Faulted(f)
  }

  /** list_projects (app.py:239-240): GET /v9/projects, `limit` defaulting to 20. */
  function ListProjects(args: Json): (r: Result<VercelCall, Fault>)
    ensures args.JObj? ==>
              r == Ok(VercelCall("GET", "/v9/projects", None, Some([("limit", ArgOr(args.fields, "limit", JInt(20)))])))
  {
    var limit :- Lookup(args, "limit", JInt(20));
    Ok(VercelCall("GET", "/v9/projects", None, Some([("limit", limit)])))
  }

  /** get_project (app.py:242-243): GET /v9/projects/<project_id>, with no body and no query. */
  function GetProject(args: Json): (r: Result<VercelCall, Fault>)
    ensures r.Ok? <==> args.JObj? && "project_id" in Keys(args.fields)
    ensures r.Ok? ==> r.value == VercelCall("GET", "/v9/projects/" + Str(Get(args.fields, "project_id").value), None, None)
  {
    var project :- Index(args, "project_id");
    Ok(VercelCall("GET", "/v9/projects/" + Str(project), None, None))
  }

  /**
    create_project (app.py:245-251): the body carries `name`, and `framework` and
    `gitRepository` only when the corresponding argument is truthy.
  */
  function CreateProject(args: Json): (r: Result<VercelCall, Fault>)
    ensures args.JObj? && "name" in Keys(args.fields) ==>
              r.Ok? && r.value.verb == "POST" && r.value.endpoint == "/v10/projects" && r.value.params.None?
              && r.value.data.Some? && r.value.data.value.JObj?
              && var body := r.value.data.value.fields;
                 && Get(body, "name") == Get(args.fields, "name")
                 && ("framework" in Keys(body) <==> Truthy(ArgOr(args.fields, "framework", JNull)))
                 && ("gitRepository" in Keys(body) <==> Truthy(ArgOr(args.fields, "git_repository", JNull)))
                 && ("framework" in Keys(body) ==> Get(body, "framework") == Get(args.fields, "framework"))
                 && ("gitRepository" in Keys(body) ==> Get(body, "gitRepository") == Get(args.fields, "git_repository"))
                 && Keys(body) <= {"name", "framework", "gitRepository"}
  {
    var name :- Index(args, "name");
    var body0 := [("name", name)];
    var framework := ArgOr(args.fields, "framework", JNull);
    var body1 := if Truthy(framework) then Put(body0, "framework", framework) else body0;
    var repository := ArgOr(args.fields, "git_repository", JNull);
    var body2 := if Truthy(repository) then Put(body1, "gitRepository", repository) else body1;
    Ok(VercelCall("POST", "/v10/projects", Some(JObj(body2)), None))
  }

  /** delete_project (app.py:253-254): DELETE /v9/projects/<project_id>, with no body and no query. */
  function DeleteProject(args: Json): (r: Result<VercelCall, Fault>)
    ensures r.Ok? <==> args.JObj? && "project_id" in Keys(args.fields)
    ensures r.Ok? ==> r.value == VercelCall("DELETE", "/v9/projects/" + Str(Get(args.fields, "project_id").value), None, None)
  {
    var project :- Index(args, "project_id");
    Ok(VercelCall("DELETE", "/v9/projects/" + Str(project), None, None))
  }

  /**
    list_deployments (app.py:256-262): `limit` defaulting to 10, and `projectId` and
    `state` only when the corresponding argument is truthy.
  */
  function ListDeployments(args: Json): (r: Result<VercelCall, Fault>)
    ensures args.JObj? ==>
              r.Ok? && r.value.verb == "GET" && r.value.endpoint == "/v6/deployments"
              && r.value.data.None? && r.value.params.Some?
              && var query := r.value.params.value;
                 && Get(query, "limit") == Some(ArgOr(args.fields, "limit", JInt(10)))
                 && ("projectId" in Keys(query) <==> Truthy(ArgOr(args.fields, "project_id", JNull)))
                 && ("state" in Keys(query) <==> Truthy(ArgOr(args.fields, "state", JNull)))
                 && ("projectId" in Keys(query) ==> Get(query, "projectId") == Get(args.fields, "project_id"))
                 && ("state" in Keys(query) ==> Get(query, "state") == Get(args.fields, "state"))
                 && Keys(query) <= {"limit", "projectId", "state"}
  {
    var limit :- Lookup(args, "limit", JInt(10));
    var query0 := [("limit", limit)];
    var project := ArgOr(args.fields, "project_id", JNull);
    var query1 := if Truthy(project) then Put(query0, "projectId", project) else query0;
    var state := ArgOr(args.fields, "state", JNull);
    var query2 := if Truthy(state) then Put(query1, "state", state) else query1;
    Ok(VercelCall("GET", "/v6/deployments", None, Some(query2)))
  }

  /** get_deployment (app.py:264-265): GET /v13/deployments/<deployment_id>, with no body and no query. */
  function GetDeployment(args: Json): (r: Result<VercelCall, Fault>)
    ensures r.Ok? <==> args.JObj? && "deployment_id" in Keys(args.fields)
    ensures r.Ok? ==> r.value == VercelCall("GET", "/v13/deployments/" + Str(Get(args.fields, "deployment_id").value), None, None)
  {
    var deployment :- Index(args, "deployment_id");
    Ok(VercelCall("GET", "/v13/deployments/" + Str(deployment), None, None))
  }

  /** cancel_deployment (app.py:267-268): PATCH /v12/deployments/<deployment_id>/cancel, with no body and no query. */
  function CancelDeployment(args: Json): (r: Result<VercelCall, Fault>)
    ensures r.Ok? <==> args.JObj? && "deployment_id" in Keys(args.fields)
    ensures r.Ok? ==>
              r.value == VercelCall("PATCH", "/v12/deployments/" + Str(Get(args.fields, "deployment_id").value) + "/cancel", None, None)
  {
    var deployment :- Index(args, "deployment_id");
    Ok(VercelCall("PATCH", "/v12/deployments/" + Str(deployment) + "/cancel", None, None))
  }

  /** list_domains (app.py:270-271): GET /v5/domains, `limit` defaulting to 20. */
  function ListDomains(args: Json): (r: Result<VercelCall, Fault>)
    ensures args.JObj? ==>
              r == Ok(VercelCall("GET", "/v5/domains", None, Some([("limit", ArgOr(args.fields, "limit", JInt(20)))])))
  {
    var limit :- Lookup(args, "limit", JInt(20));
    Ok(VercelCall("GET", "/v5/domains", None, Some([("limit", limit)])))
  }

  /**
    add_domain (app.py:273-274): POST /v10/projects/<project_id>/domains with the body
    `{"name": domain}` and no query; the path is built (project_id) before the body (domain).
  */
  function AddDomain(args: Json): (r: Result<VercelCall, Fault>)
    ensures r.Ok? <==> args.JObj? && "project_id" in Keys(args.fields) && "domain" in Keys(args.fields)
    ensures r.Ok? ==>
              && r.value.verb == "POST" && r.value.params.None?
              && r.value.endpoint == "/v10/projects/" + Str(Get(args.fields, "project_id").value) + "/domains"
              && r.value.data == Some(JObj([("name", Get(args.fields, "domain").value)]))
  {
    var project :- Index(args, "project_id");
    var domain :- Index(args, "domain");
    Ok(VercelCall("POST", "/v10/projects/" + Str(project) + "/domains", Some(JObj([("name", domain)])), None))
  }

  /** remove_domain (app.py:276-277): DELETE /v9/projects/<project_id>/domains/<domain>, with no body and no query. */
  function RemoveDomain(args: Json): (r: Result<VercelCall, Fault>)
    ensures r.Ok? <==> args.JObj? && "project_id" in Keys(args.fields) && "domain" in Keys(args.fields)
    ensures r.Ok? ==>
              r.value == VercelCall("DELETE", "/v9/projects/" + Str(Get(args.fields, "project_id").value)
                                              + "/domains/" + Str(Get(args.fields, "domain").value), None, None)
  {
    var project :- Index(args, "project_id");
    var domain :- Index(args, "domain");
    Ok(VercelCall("DELETE", "/v9/projects/" + Str(project) + "/domains/" + Str(domain), None, None))
  }

  /** list_env_vars (app.py:279-280): GET /v9/projects/<project_id>/env, with no body and no query. */
  function ListEnvVars(args: Json): (r: Result<VercelCall, Fault>)
    ensures r.Ok? <==> args.JObj? && "project_id" in Keys(args.fields)
    ensures r.Ok? ==> r.value == VercelCall("GET", "/v9/projects/" + Str(Get(args.fields, "project_id").value) + "/env", None, None)
  {
    var project :- Index(args, "project_id");
    Ok(VercelCall("GET", "/v9/projects/" + Str(project) + "/env", None, None))
  }

  /**
    create_env_var (app.py:282-289): the body is built (key, value, target) before the
    path (project_id); `type` is always "encrypted" and `target` defaults to all three
    environments.
  */
  function CreateEnvVar(args: Json): (r: Result<VercelCall, Fault>)
    ensures r.Ok? ==>
              && r.value.data.Some? && r.value.data.value.JObj?
              && var body := r.value.data.value.fields;
                 && Keys(body) == {"key", "value", "target", "type"}
                 && Get(body, "type") == Some(JStr("encrypted"))
                 && args.JObj?
                 && Get(body, "key") == Get(args.fields, "key")
                 && Get(body, "value") == Get(args.fields, "value")
                 && Get(body, "target") == Some(ArgOr(args.fields, "target", DefaultTargets))
  {
    var key :- Index(args, "key");
    var value :- Index(args, "value");
    var target := ArgOr(args.fields, "target", DefaultTargets);
    var body := [("key", key), ("value", value), ("target", target), ("type", JStr("encrypted"))];
    Unfold(body); Unfold(body[1..]); Unfold(body[2..]); Unfold(body[3..]);
    var project :- Index(args, "project_id");
    Ok(VercelCall("POST", "/v10/projects/" + Str(project) + "/env", Some(JObj(body)), None))
  }

  /** delete_env_var (app.py:291-292): DELETE /v9/projects/<project_id>/env/<env_id>, with no body and no query. */
  function DeleteEnvVar(args: Json): (r: Result<VercelCall, Fault>)
    ensures r.Ok? <==> args.JObj? && "project_id" in Keys(args.fields) && "env_id" in Keys(args.fields)
    ensures r.Ok? ==>
              r.value == VercelCall("DELETE", "/v9/projects/" + Str(Get(args.fields, "project_id").value)
                                              + "/env/" + Str(Get(args.fields, "env_id").value), None, None)
  {
    var project :- Index(args, "project_id");
    var variable :- Index(args, "env_id");
    Ok(VercelCall("DELETE", "/v9/projects/" + Str(project) + "/env/" + Str(variable), None, None))
  }

  /** redeploy (app.py:294-298): POST /v13/deployments, always targeting production. */
  function Redeploy(args: Json): (r: Result<VercelCall, Fault>)
    ensures r.Ok? ==>
              && r.value.data.Some? && r.value.data.value.JObj?
              && var body := r.value.data.value.fields;
                 && Keys(body) == {"deploymentId", "target"}
                 && Get(body, "target") == Some(JStr("production"))
                 && args.JObj? && Get(body, "deploymentId") == Get(args.fields, "deployment_id")
  {
    var deployment :- Index(args, "deployment_id");
    var body := [("deploymentId", deployment), ("target", JStr("production"))];
    Unfold(body); Unfold(body[1..]);
    Ok(VercelCall("POST", "/v13/deployments", Some(JObj(body)), None))
  }

  /** get_user (app.py:300-301): GET /v2/user, whatever the arguments, with no body and no query. */
  function GetUser(args: Json): (r: Result<VercelCall, Fault>)
    ensures r.Ok? && r.value.verb == "GET" && r.value.endpoint == "/v2/user"
    ensures r.value.data.None? && r.value.params.None?
  {
    Ok(VercelCall("GET", "/v2/user", None, None))
  }

  /** The fifteen branches of `handle_tool_call`, one per tool. */
  datatype ToolKind =
    | ListProjectsTool
    | GetProjectTool
    | CreateProjectTool
    | DeleteProjectTool
    | ListDeploymentsTool
    | GetDeploymentTool
    | CancelDeploymentTool
    | ListDomainsTool
    | AddDomainTool
    | RemoveDomainTool
    | ListEnvVarsTool
    | CreateEnvVarTool
    | DeleteEnvVarTool
    | RedeployTool
    | GetUserTool

  /** The branch a tool name selects (app.py:239-301), or None for the final `else` (app.py:303). */
  function KindOf(name: string): (r: Option<ToolKind>)
    ensures forall kind :: r == Some(kind) <==> NameOf(kind) == name
  {
    match name
    case "list_projects" => Some(ListProjectsTool)
    case "get_project" => Some(GetProjectTool)
    case "create_project" => Some(CreateProjectTool)
    case "delete_project" => Some(DeleteProjectTool)
    case "list_deployments" => Some(ListDeploymentsTool)
    case "get_deployment" => Some(GetDeploymentTool)
    case "cancel_deployment" => Some(CancelDeploymentTool)
    case "list_domains" => Some(ListDomainsTool)
    case "add_domain" => Some(AddDomainTool)
    case "remove_domain" => Some(RemoveDomainTool)
    case "list_env_vars" => Some(ListEnvVarsTool)
    case "create_env_var" => Some(CreateEnvVarTool)
    case "delete_env_var" => Some(DeleteEnvVarTool)
    case "redeploy" => Some(RedeployTool)
    case "get_user" => Some(GetUserTool)
    case _ => None
  }

  /** The name each branch answers to. */
  function NameOf(kind: ToolKind): string {
    match kind
    case ListProjectsTool => "list_projects"
    case GetProjectTool => "get_project"
    case CreateProjectTool => "create_project"
    case DeleteProjectTool => "delete_project"
    case ListDeploymentsTool => "list_deployments"
    case GetDeploymentTool => "get_deployment"
    case CancelDeploymentTool => "cancel_deployment"
    case ListDomainsTool => "list_domains"
    case AddDomainTool => "add_domain"
    case RemoveDomainTool => "remove_domain"
    case ListEnvVarsTool => "list_env_vars"
    case CreateEnvVarTool => "create_env_var"
    case DeleteEnvVarTool => "delete_env_var"
    case RedeployTool => "redeploy"
    case GetUserTool => "get_user"
  }


  /** The shaping each branch performs. */
  function Shape(kind: ToolKind, args: Json): Result<VercelCall, Fault> {
    match kind
    case ListProjectsTool => ListProjects(args)
    case GetProjectTool => GetProject(args)
    case CreateProjectTool => CreateProject(args)
    case DeleteProjectTool => DeleteProject(args)
    case ListDeploymentsTool => ListDeployments(args)
    case GetDeploymentTool => GetDeployment(args)
    case CancelDeploymentTool => CancelDeployment(args)
    case ListDomainsTool => ListDomains(args)
    case AddDomainTool => AddDomain(args)
    case RemoveDomainTool => RemoveDomain(args)
    case ListEnvVarsTool => ListEnvVars(args)
    case CreateEnvVarTool => CreateEnvVar(args)
    case DeleteEnvVarTool => DeleteEnvVar(args)
    case RedeployTool => Redeploy(args)
    case GetUserTool => GetUser(args)
  }

  /** What `handle_tool_call` makes of a name and arguments before calling the client (app.py:238-304). */
  function BuildRequest(name: Json, args: Json): (r: Shaped)
    ensures r.UnknownTool? <==> !(name.JStr? && name.s in Names())
  {
    if !name.JStr? then UnknownTool
    else
      BranchIffRegistered(name.s);
      match KindOf(name.s)
      case None => UnknownTool
      case Some(kind) => Lift(Shape(kind, args))
  }

  // ---------------------------------------------------------------------------
  // Results of a tool call

  /** `{"type": "text", "text": text}` */
  function TextItem(text: string): Json {
    JObj([("type", JStr("text")), ("text", JStr(text))])
  }

  /** `{"content": [text item]}`, the successful tool-call result. */
  function Content(text: string): Json {
    JObj([("content", JArr([TextItem(text)]))])
  }

  /** `{"content": [text item], "isError": true}` */
  function ErrorContent(text: string): Json {
    JObj([("content", JArr([TextItem(text)])), ("isError", JBool(true))])
  }

  /** Whether a tool-call result carries `"isError": true`. */
  predicate Flagged(r: Json) {
    r.JObj? && Get(r.fields, "isError") == Some(JBool(true))
  }

  /** The text of a result whose content is a single text item. */
  function ContentText(r: Json): Option<string> {
    if !r.JObj? then None
    else match Get(r.fields, "content")
      case Some(JArr(items)) =>
        if |items| == 1 && items[0].JObj? then
          match Get(items[0].fields, "text")
          case Some(JStr(t)) => if Get(items[0].fields, "type") == Some(JStr("text")) then Some(t) else None
          case _ => None
        else None
      case _ => None
  }

  /**
    The result of `handle_tool_call(name, args)` for a backend with the given team id
    and server that has already sent `history`.
  */
  function ToolCallResult(name: Json, args: Json, teamId: string, server: Server,
                          history: seq<HttpRequest>, dumps: Json -> string): (r: Json)
    ensures ContentText(r).Some?
    ensures Flagged(r) <==> !BuildRequest(name, args).Ready?
  {
    match BuildRequest(name, args)
    case UnknownTool =>
      ErrorContentReads("Unknown tool: " + Str(name));
      ErrorContent("Unknown tool: " + Str(name))
    case Faulted(f) =>
      ErrorContentReads("Error: " + FaultText(f));
      ErrorContent("Error: " + FaultText(f))
    case Ready(c) =>
      var text := dumps(Response(teamId, server, history, c.verb, c.endpoint, c.data, c.params));
      ContentReads(text);
      Content(text)
  }

  /** The requests `handle_tool_call(name, args)` sends to the network. */
  function CallsMade(name: Json, args: Json, teamId: string): seq<HttpRequest> {
    match BuildRequest(name, args)
    case Ready(c) => Sent(teamId, c.verb, c.endpoint, c.data, c.params)
    case _ => []
  }

  /** `handle_tool_call(name, args)` against `backend`. */
  method HandleToolCall(name: Json, args: Json, backend: Backend, dumps: Json -> string) returns (r: Json)
    modifies backend`log
    ensures backend.log == old(backend.log) + CallsMade(name, args, backend.teamId)
    ensures r == ToolCallResult(name, args, backend.teamId, backend.server, old(backend.log), dumps)
  {
    match BuildRequest(name, args)
    case UnknownTool =>
      r := ErrorContent("Unknown tool: " + Str(name));
    case Faulted(f) =>
      r := ErrorContent("Error: " + FaultText(f));
    case Ready(c) =>
      var result := backend.Request(c.verb, c.endpoint, c.data, c.params);
      r := Content(dumps(result));
  }

  // ---------------------------------------------------------------------------
  // The call each branch of app.py:239-301 makes, written out as a separate table

  /** A piece of an endpoint path: literal text, or the value of an argument. */
  datatype Segment = Lit(text: string) | Arg(key: string)

  /** A method, a path, and whether the call passes a query (`params`) and a body (`data`). */
  datatype Endpoint = Endpoint(verb: string, path: seq<Segment>, query: bool, body: bool)

  /** The method and path each branch calls, and whether it passes a query and a body. */
  function EndpointOf(kind: ToolKind): Endpoint {
    match kind
    case ListProjectsTool => Endpoint("GET", [Lit("/v9/projects")], true, false)
    case GetProjectTool => Endpoint("GET", [Lit("/v9/projects/"), Arg("project_id")], false, false)
    case CreateProjectTool => Endpoint("POST", [Lit("/v10/projects")], false, true)
    case DeleteProjectTool => Endpoint("DELETE", [Lit("/v9/projects/"), Arg("project_id")], false, false)
    case ListDeploymentsTool => Endpoint("GET", [Lit("/v6/deployments")], true, false)
    case GetDeploymentTool => Endpoint("GET", [Lit("/v13/deployments/"), Arg("deployment_id")], false, false)
    case CancelDeploymentTool => Endpoint("PATCH", [Lit("/v12/deployments/"), Arg("deployment_id"), Lit("/cancel")], false, false)
    case ListDomainsTool => Endpoint("GET", [Lit("/v5/domains")], true, false)
    case AddDomainTool => Endpoint("POST", [Lit("/v10/projects/"), Arg("project_id"), Lit("/domains")], false, true)
    case RemoveDomainTool => Endpoint("DELETE", [Lit("/v9/projects/"), Arg("project_id"), Lit("/domains/"), Arg("domain")], false, false)
    case ListEnvVarsTool => Endpoint("GET", [Lit("/v9/projects/"), Arg("project_id"), Lit("/env")], false, false)
    case CreateEnvVarTool => Endpoint("POST", [Lit("/v10/projects/"), Arg("project_id"), Lit("/env")], false, true)
    case DeleteEnvVarTool => Endpoint("DELETE", [Lit("/v9/projects/"), Arg("project_id"), Lit("/env/"), Arg("env_id")], false, false)
    case RedeployTool => Endpoint("POST", [Lit("/v13/deployments")], false, true)
    case GetUserTool => Endpoint("GET", [Lit("/v2/user")], false, false)
  }

  /** The text of one segment: an argument is interpolated with `str()`. */
  function Piece(segment: Segment, args: Dict): string {
    match segment
    case Lit(text) => text
    case Arg(key) => Str(ArgOr(args, key, JNull))
  }

  /** A path with every argument segment replaced by the argument's text. */
  function Render(path: seq<Segment>, args: Dict): string {
    if path == [] then "" else Piece(path[0], args) + Render(path[1..], args)
  }

  // Rendering the short paths of the endpoint table, segment by segment.

  lemma RenderPath1(a: Segment, args: Dict)
    ensures Render([a], args) == Piece(a, args)
  {
    assert [a][1..] == [];
  }

  lemma RenderPath2(a: Segment, b: Segment, args: Dict)
    ensures Render([a, b], args) == Piece(a, args) + Piece(b, args)
  {
    assert [a, b][1..] == [b];
    RenderPath1(b, args);
  }

  lemma RenderPath3(a: Segment, b: Segment, c: Segment, args: Dict)
    ensures Render([a, b, c], args) == Piece(a, args) + Piece(b, args) + Piece(c, args)
  {
    assert [a, b, c][1..] == [b, c];
    RenderPath2(b, c, args);
  }

  lemma RenderPath4(a: Segment, b: Segment, c: Segment, d: Segment, args: Dict)
    ensures Render([a, b, c, d], args) == Piece(a, args) + Piece(b, args) + Piece(c, args) + Piece(d, args)
  {
    assert [a, b, c, d][1..] == [b, c, d];
    RenderPath3(b, c, d, args);
  }

  // ---------------------------------------------------------------------------
  // Properties

  /** The registered names, spelled out. */
  lemma NamesListed()
    ensures Names() == ["list_projects", "get_project", "create_project", "delete_project",
                        "list_deployments", "get_deployment", "cancel_deployment", "list_domains",
                        "add_domain", "remove_domain", "list_env_vars", "create_env_var",
                        "delete_env_var", "redeploy", "get_user"]
  {
  }

  /** A name selects a branch exactly when it is the name of a registered tool. */
  lemma BranchIffRegistered(name: string)
    ensures KindOf(name).Some? <==> name in Names()
  {
    NamesListed();
  }

  /** Different registered tools select different branches. */
  lemma BranchesDistinct(i: nat, j: nat)
    requires i < j < |Tools|
    ensures KindOf(Tools[i].name).Some? && KindOf(Tools[j].name).Some?
    ensures KindOf(Tools[i].name) != KindOf(Tools[j].name)
  {
    RegistryBranches(i);
    RegistryBranches(j);
    NamesDistinct();
  }


  /** The keys each branch reads with `args[...]`, so that their absence raises KeyError. */
  function Subscripted(kind: ToolKind): set<string> {
    match kind
    case GetProjectTool | DeleteProjectTool | ListEnvVarsTool => {"project_id"}
    case GetDeploymentTool | CancelDeploymentTool | RedeployTool => {"deployment_id"}
    case CreateProjectTool => {"name"}
    case AddDomainTool | RemoveDomainTool => {"project_id", "domain"}
    case CreateEnvVarTool => {"project_id", "key", "value"}
    case DeleteEnvVarTool => {"project_id", "env_id"}
    case ListProjectsTool | ListDeploymentsTool | ListDomainsTool | GetUserTool => {}
  }

  // The registry, checked against the branches five entries at a time.

  lemma RegistryBranchesLow(i: nat)
    requires 0 <= i < 5
    ensures KindOf(Tools[i].name).Some?
    ensures forall k :: k in Tools[i].Required() <==> k in Subscripted(KindOf(Tools[i].name).value)
  {
    if i == 0 { assert Tools[i] == ListProjectsDef; }
    else if i == 1 { assert Tools[i] == GetProjectDef; }
    else if i == 2 { assert Tools[i] == CreateProjectDef; }
    else if i == 3 { assert Tools[i] == DeleteProjectDef; }
    else { assert Tools[i] == ListDeploymentsDef; }
  }

  lemma RegistryBranchesMiddle(i: nat)
    requires 5 <= i < 10
    ensures KindOf(Tools[i].name).Some?
    ensures forall k :: k in Tools[i].Required() <==> k in Subscripted(KindOf(Tools[i].name).value)
  {
    if i == 5 { assert Tools[i] == GetDeploymentDef; }
    else if i == 6 { assert Tools[i] == CancelDeploymentDef; }
    else if i == 7 { assert Tools[i] == ListDomainsDef; }
    else if i == 8 { assert Tools[i] == AddDomainDef; }
    else { assert Tools[i] == RemoveDomainDef; }
  }

  lemma RegistryBranchesHigh(i: nat)
    requires 10 <= i < 15
    ensures KindOf(Tools[i].name).Some?
    ensures forall k :: k in Tools[i].Required() <==> k in Subscripted(KindOf(Tools[i].name).value)
  {
    if i == 10 { assert Tools[i] == ListEnvVarsDef; }
    else if i == 11 { assert Tools[i] == CreateEnvVarDef; }
    else if i == 12 { assert Tools[i] == DeleteEnvVarDef; }
    else if i == 13 { assert Tools[i] == RedeployDef; }
    else { assert Tools[i] == GetUserDef; }
  }

  /**
    The name of every registry entry selects a branch, and the keys that branch
    subscripts are exactly the keys the entry's schema declares required.
  */
  lemma RegistryBranches(i: nat)
    requires i < |Tools|
    ensures KindOf(Tools[i].name).Some?
    ensures forall k :: k in Tools[i].Required() <==> k in Subscripted(KindOf(Tools[i].name).value)
  {
    if i < 5 { RegistryBranchesLow(i); }
    else if i < 10 { RegistryBranchesMiddle(i); }
    else { RegistryBranchesHigh(i); }
  }

  // The endpoint table, checked against the branches five at a time.

  lemma ProjectCallsFollowTable(kind: ToolKind, args: Dict)
    requires kind in {ListProjectsTool, GetProjectTool, CreateProjectTool, DeleteProjectTool, ListEnvVarsTool}
    requires Subscripted(kind) <= Keys(args)
    ensures var s := Shape(kind, JObj(args));
            && s.Ok? && s.value.verb == EndpointOf(kind).verb && s.value.endpoint == Render(EndpointOf(kind).path, args)
            && (s.value.params.Some? <==> EndpointOf(kind).query) && (s.value.data.Some? <==> EndpointOf(kind).body)
  {
    if kind == ListProjectsTool { RenderPath1(Lit("/v9/projects"), args); }
    else if kind == GetProjectTool { RenderPath2(Lit("/v9/projects/"), Arg("project_id"), args); }
    else if kind == CreateProjectTool { RenderPath1(Lit("/v10/projects"), args); }
    else if kind == DeleteProjectTool { RenderPath2(Lit("/v9/projects/"), Arg("project_id"), args); }
    else { RenderPath3(Lit("/v9/projects/"), Arg("project_id"), Lit("/env"), args); }
  }

  lemma DeploymentCallsFollowTable(kind: ToolKind, args: Dict)
    requires kind in {ListDeploymentsTool, GetDeploymentTool, CancelDeploymentTool, RedeployTool, GetUserTool}
    requires Subscripted(kind) <= Keys(args)
    ensures var s := Shape(kind, JObj(args));
            && s.Ok? && s.value.verb == EndpointOf(kind).verb && s.value.endpoint == Render(EndpointOf(kind).path, args)
            && (s.value.params.Some? <==> EndpointOf(kind).query) && (s.value.data.Some? <==> EndpointOf(kind).body)
  {
    if kind == ListDeploymentsTool { RenderPath1(Lit("/v6/deployments"), args); }
    else if kind == GetDeploymentTool { RenderPath2(Lit("/v13/deployments/"), Arg("deployment_id"), args); }
    else if kind == CancelDeploymentTool {
      RenderPath3(Lit("/v12/deployments/"), Arg("deployment_id"), Lit("/cancel"), args);
    }
    else if kind == RedeployTool { RenderPath1(Lit("/v13/deployments"), args); }
    else { RenderPath1(Lit("/v2/user"), args); }
  }

  lemma DomainAndEnvCallsFollowTable(kind: ToolKind, args: Dict)
    requires kind in {ListDomainsTool, AddDomainTool, RemoveDomainTool, CreateEnvVarTool, DeleteEnvVarTool}
    requires Subscripted(kind) <= Keys(args)
    ensures var s := Shape(kind, JObj(args));
            && s.Ok? && s.value.verb == EndpointOf(kind).verb && s.value.endpoint == Render(EndpointOf(kind).path, args)
            && (s.value.params.Some? <==> EndpointOf(kind).query) && (s.value.data.Some? <==> EndpointOf(kind).body)
  {
    if kind == ListDomainsTool { RenderPath1(Lit("/v5/domains"), args); }
    else if kind == AddDomainTool { RenderPath3(Lit("/v10/projects/"), Arg("project_id"), Lit("/domains"), args); }
    else if kind == RemoveDomainTool {
      RenderPath4(Lit("/v9/projects/"), Arg("project_id"), Lit("/domains/"), Arg("domain"), args);
    }
    else if kind == CreateEnvVarTool { RenderPath3(Lit("/v10/projects/"), Arg("project_id"), Lit("/env"), args); }
    else { RenderPath4(Lit("/v9/projects/"), Arg("project_id"), Lit("/env/"), Arg("env_id"), args); }
  }

  /** Given the keys it subscripts, a branch makes the call the endpoint table lists for it. */
  lemma ShapeFollowsTable(kind: ToolKind, args: Dict)
    requires Subscripted(kind) <= Keys(args)
    ensures var s := Shape(kind, JObj(args));
            && s.Ok? && s.value.verb == EndpointOf(kind).verb && s.value.endpoint == Render(EndpointOf(kind).path, args)
            && (s.value.params.Some? <==> EndpointOf(kind).query) && (s.value.data.Some? <==> EndpointOf(kind).body)
  {
    if kind in {ListProjectsTool, GetProjectTool, CreateProjectTool, DeleteProjectTool, ListEnvVarsTool} {
      ProjectCallsFollowTable(kind, args);
    } else if kind in {ListDeploymentsTool, GetDeploymentTool, CancelDeploymentTool, RedeployTool, GetUserTool} {
      DeploymentCallsFollowTable(kind, args);
    } else {
      DomainAndEnvCallsFollowTable(kind, args);
    }
  }

  /**
    Every registered tool has a branch, and, given its required arguments, that branch
    makes the call the endpoint table lists for it.
  */
  lemma RegisteredToolDispatches(i: nat, args: Dict)
    requires i < |Tools|
    requires forall k :: k in Tools[i].Required() ==> k in Keys(args)
    ensures KindOf(Tools[i].name).Some?
    ensures var shaped := BuildRequest(JStr(Tools[i].name), JObj(args));
            var endpoint := EndpointOf(KindOf(Tools[i].name).value);
            && shaped.Ready? && shaped.call.verb == endpoint.verb && shaped.call.endpoint == Render(endpoint.path, args)
            && (shaped.call.params.Some? <==> endpoint.query) && (shaped.call.data.Some? <==> endpoint.body)
  {
    RegistryBranches(i);
    ShapeFollowsTable(KindOf(Tools[i].name).value, args);
  }

  /** cancel_deployment with a `deployment_id` is `PATCH /v12/deployments/<id>/cancel`, with no body or query. */
  lemma CancelDeploymentCall(args: Dict)
    requires "deployment_id" in Keys(args)
    ensures BuildRequest(JStr("cancel_deployment"), JObj(args))
              == Ready(VercelCall("PATCH", "/v12/deployments/" + Str(Get(args, "deployment_id").value) + "/cancel", None, None))
  {
    assert KindOf("cancel_deployment") == Some(CancelDeploymentTool);
  }

  /** With an object of arguments, a branch faults exactly when a key it subscripts is absent. */
  lemma ShapeFaultsOnMissing(kind: ToolKind, args: Dict)
    ensures var s := Shape(kind, JObj(args));
            && (s.Err? <==> !(Subscripted(kind) <= Keys(args)))
            && (s.Err? ==> s.error.MissingKey? && s.error.key in Subscripted(kind) && s.error.key !in Keys(args))
  {
  }

  /**
    With an object of arguments, a registered tool faults exactly when one of the keys
    its schema declares required is absent, and the fault names such a key.
  */
  lemma MissingRequiredFaults(i: nat, args: Dict)
    requires i < |Tools|
    ensures var shaped := BuildRequest(JStr(Tools[i].name), JObj(args));
            && (shaped.Faulted? <==> exists k :: k in Tools[i].Required() && k !in Keys(args))
            && (shaped.Faulted? ==> shaped.fault.MissingKey? && shaped.fault.key in Tools[i].Required()
                                    && shaped.fault.key !in Keys(args))
  {
    RegistryBranches(i);
    ShapeFaultsOnMissing(KindOf(Tools[i].name).value, args);
  }

  /** Arguments that are not an object make every branch but get_user's fault, never with a missing key. */
  lemma ShapeRejectsNonObject(kind: ToolKind, args: Json)
    requires !args.JObj?
    ensures var s := Shape(kind, args);
            && (s.Err? <==> kind != GetUserTool)
            && (s.Err? ==> !s.error.MissingKey?)
  {
  }

  /**
    Arguments that are not an object make every registered tool fault except
    get_user, which never looks at them; the fault is never a missing key.
  */
  lemma NonObjectArguments(i: nat, args: Json)
    requires i < |Tools|
    requires !args.JObj?
    ensures var shaped := BuildRequest(JStr(Tools[i].name), args);
            && (shaped.Faulted? <==> Tools[i].name != "get_user")
            && (shaped.Faulted? ==> !shaped.fault.MissingKey?)
  {
    RegistryBranches(i);
    var kind := KindOf(Tools[i].name).value;
    ShapeRejectsNonObject(kind, args);
  }

  /** Every call a branch shapes uses a method the client knows, a known query key set, and a body only with POST. */
  lemma ShapeWellFormed(kind: ToolKind, args: Json)
    ensures var s := Shape(kind, args);
            s.Ok? ==>
              && s.value.verb in Verbs
              && (s.value.data.Some? ==> s.value.verb == "POST")
              && (s.value.params.None? || Keys(s.value.params.value) <= {"limit", "projectId", "state"})
  {
    match kind
    case ListProjectsTool =>
      if args.JObj? { Unfold([("limit", ArgOr(args.fields, "limit", JInt(20)))]); }
    case ListDomainsTool =>
      if args.JObj? { Unfold([("limit", ArgOr(args.fields, "limit", JInt(20)))]); }
    case _ =>
  }

  /** Every call the dispatcher shapes uses a method the client knows, and a known key set for its query. */
  lemma ReadyCallsWellFormed(name: Json, args: Json)
    ensures var shaped := BuildRequest(name, args);
            shaped.Ready? ==>
              && shaped.call.verb in Verbs
              && (shaped.call.data.Some? ==> shaped.call.verb == "POST")
              && (shaped.call.params.None? || Keys(shaped.call.params.value) <= {"limit", "projectId", "state"})
  {
    if name.JStr? && KindOf(name.s).Some? {
      ShapeWellFormed(KindOf(name.s).value, args);
    }
  }

  /**
    A tool call sends no request unless its arguments shape into a call, and then
    exactly one: its method, the endpoint under the base URL, the query with the
    team id applied, and the body for the methods that carry one.
  */
  lemma OneCallPerToolCall(name: Json, args: Json, teamId: string)
    ensures var shaped := BuildRequest(name, args);
            var calls := CallsMade(name, args, teamId);
            && (!shaped.Ready? ==> calls == [])
            && (shaped.Ready? ==>
                  var c := shaped.call;
                  && |calls| == 1
                  && calls[0].verb == c.verb && calls[0].url == BaseUrl + c.endpoint
                  && calls[0].query == WithTeam(teamId, c.params)
                  && calls[0].body == (if c.verb == "POST" then c.data else None))
  {
    ReadyCallsWellFormed(name, args);
  }

  /**
    With a team id configured every request a tool call sends carries it as `teamId`;
    without one, no request carries a `teamId` parameter.
  */
  lemma TeamScoping(name: Json, args: Json, teamId: string)
    ensures forall r :: r in CallsMade(name, args, teamId) ==>
              && (teamId != "" ==> r.query.Some? && Get(r.query.value, "teamId") == Some(JStr(teamId)))
              && (teamId == "" ==> r.query.None? || "teamId" !in Keys(r.query.value))
  {
    ReadyCallsWellFormed(name, args);
  }

  /** A successful result carries its text and no error flag. */
  lemma ContentReads(text: string)
    ensures !Flagged(Content(text)) && ContentText(Content(text)) == Some(text)
  {
    Unfold(Content(text).fields);
    Unfold(TextItem(text).fields);
    Unfold(TextItem(text).fields[1..]);
  }

  /** An error result carries its text and the error flag. */
  lemma ErrorContentReads(text: string)
    ensures Flagged(ErrorContent(text)) && ContentText(ErrorContent(text)) == Some(text)
  {
    Unfold(ErrorContent(text).fields);
    Unfold(ErrorContent(text).fields[1..]);
    Unfold(TextItem(text).fields);
    Unfold(TextItem(text).fields[1..]);
  }

  /**
    `isError` is set exactly when no call was shaped (unknown tool, or a fault while
    shaping); an upstream error is only serialised into the text.
  */
  lemma ErrorFlagOnlyForLocalFaults(name: Json, args: Json, teamId: string, server: Server,
                                    history: seq<HttpRequest>, dumps: Json -> string)
    ensures var shaped := BuildRequest(name, args);
            var r := ToolCallResult(name, args, teamId, server, history, dumps);
            && (Flagged(r) <==> !shaped.Ready?)
            && (shaped.UnknownTool? ==> ContentText(r) == Some("Unknown tool: " + Str(name)))
            && (shaped.Faulted? ==> ContentText(r) == Some("Error: " + FaultText(shaped.fault)))
            && (shaped.Ready? ==>
                  ContentText(r) == Some(dumps(Response(teamId, server, history, shaped.call.verb,
                                                        shaped.call.endpoint, shaped.call.data, shaped.call.params))))
  {
    match BuildRequest(name, args)
    case UnknownTool => ErrorContentReads("Unknown tool: " + Str(name));
    case Faulted(f) => ErrorContentReads("Error: " + FaultText(f));
    case Ready(c) => ContentReads(dumps(Response(teamId, server, history, c.verb, c.endpoint, c.data, c.params)));
  }

  /** An unregistered name is reported as an unknown tool, flagged, and sends nothing. */
  lemma UnknownToolReported(name: Json, args: Json, teamId: string, server: Server,
                            history: seq<HttpRequest>, dumps: Json -> string)
    requires !(name.JStr? && name.s in Names())
    ensures var r := ToolCallResult(name, args, teamId, server, history, dumps);
            && Flagged(r) && ContentText(r) == Some("Unknown tool: " + Str(name))
            && CallsMade(name, args, teamId) == []
  {
    ErrorFlagOnlyForLocalFaults(name, args, teamId, server, history, dumps);
  }

  lemma PrefixOfConcat(a: string, b: string)
    ensures a <= a + b
  {
  }

  /** A missing key is reported as the flagged text "Error: " followed by the quoted key, and nothing is sent. */
  lemma MissingKeyText(name: Json, args: Json, key: string, teamId: string, server: Server,
                       history: seq<HttpRequest>, dumps: Json -> string)
    requires BuildRequest(name, args) == Faulted(MissingKey(key))
    ensures var r := ToolCallResult(name, args, teamId, server, history, dumps);
            && Flagged(r) && ContentText(r) == Some("Error: " + ("'" + key + "'"))
            && CallsMade(name, args, teamId) == []
  {
    ErrorFlagOnlyForLocalFaults(name, args, teamId, server, history, dumps);
  }

  /**
    A registered tool missing a required argument is reported as an error whose text
    begins with "Error: " and names a missing required key, and sends nothing.
  */
  lemma MissingKeyReported(i: nat, args: Dict, key: string, teamId: string, server: Server,
                           history: seq<HttpRequest>, dumps: Json -> string)
    requires i < |Tools|
    requires key in Tools[i].Required() && key !in Keys(args)
    ensures var r := ToolCallResult(JStr(Tools[i].name), JObj(args), teamId, server, history, dumps);
            && Flagged(r) && ContentText(r).Some? && "Error: " <= ContentText(r).value
            && (exists k :: k in Tools[i].Required() && k !in Keys(args) && ContentText(r) == Some("Error: " + ("'" + k + "'")))
            && CallsMade(JStr(Tools[i].name), JObj(args), teamId) == []
  {
    var name := JStr(Tools[i].name);
    MissingRequiredFaults(i, args);
    var k := BuildRequest(name, JObj(args)).fault.key;
    MissingKeyText(name, JObj(args), k, teamId, server, history, dumps);
    PrefixOfConcat("Error: ", "'" + k + "'");
  }

  /**
    A registered tool given its required arguments sends exactly one request, with the
    method and path the endpoint table lists, and reports the client's result,
    serialised, without the error flag, whatever that result says.
  */
  lemma RegisteredToolCalls(i: nat, args: Dict, teamId: string, server: Server,
                            history: seq<HttpRequest>, dumps: Json -> string)
    requires i < |Tools|
    requires forall k :: k in Tools[i].Required() ==> k in Keys(args)
    ensures KindOf(Tools[i].name).Some?
    ensures var name := JStr(Tools[i].name);
            var endpoint := EndpointOf(KindOf(Tools[i].name).value);
            var calls := CallsMade(name, JObj(args), teamId);
            var r := ToolCallResult(name, JObj(args), teamId, server, history, dumps);
            && |calls| == 1
            && calls[0].verb == endpoint.verb
            && calls[0].url == BaseUrl + Render(endpoint.path, args)
            && !Flagged(r)
            && ContentText(r) == Some(dumps(Classify(server(history, calls[0]))))
  {
    var name := JStr(Tools[i].name);
    RegisteredToolDispatches(i, args);
    OneCallPerToolCall(name, JObj(args), teamId);
    ErrorFlagOnlyForLocalFaults(name, JObj(args), teamId, server, history, dumps);
  }
}

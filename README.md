# vercel-mcp adapter core, in Dafny

This project models the MCP adapter of `app.py` in the vercel-mcp service, a small
JSON-RPC server that exposes fifteen Vercel platform operations as MCP tools.
The adapter has four parts:

- **`vercel_request`** — the backend client (`vercel.dfy`, module `Vercel`).
  - It sets `teamId` in the query parameters when a team id is configured.
  - It sends one HTTP request for GET, POST, PATCH, DELETE or PUT, and refuses any other method.
  - It maps the outcome to a result dictionary:
    - 204 gives `{"success": true}`.
    - 200, 201 and 202 give the parsed body.
    - Any other status gives `{"error": "HTTP <code>", "details": <first 500 characters>}`.
    - A transport exception gives `{"error": <message>}`.
  - `Backend` is a class whose `log` records every request `vercel_request` sends or tries to send, including one whose sending fails.
    The network is the backend's `server` function, which answers a request given the requests sent before it.
- **`TOOLS`** — the tool registry (`registry.dfy`, module `Registry`).
  - It holds the fifteen tool definitions with their names, descriptions and input schemas.
  - It also gives their JSON form, as `tools/list` reports it.
- **`handle_tool_call`** — the dispatcher (`dispatcher.dfy`, module `Dispatcher`).
  - Each tool has a pure shaping function that turns the arguments into one backend call.
  - Shaping follows Python's evaluation order. A missing key raises `KeyError`; arguments that are not a dict raise `AttributeError` or `TypeError`.
  - `HandleToolCall` makes the call on a `Backend` and wraps the outcome as MCP content.
    - It sets `isError` only for an unknown tool or a fault while shaping.
  - `EndpointOf` is the method and path each branch of app.py:239-301 calls, and whether it passes a query and a body, written out as a separate table.
  - `Subscripted` is the set of keys each branch indexes with `args[...]`. Both are proved against the branches and the registry.
- **`process_mcp_message`** — the JSON-RPC router (`mcp.dfy`, module `Mcp`).
  - `Route` is a pure function that picks the branch: `initialize`, `tools/list`, `tools/call`, `notifications/initialized`, or method not found (-32601).
  - `ProcessMessage` carries out a `tools/call` against a `Backend`.
  - Every response echoes the request id, which defaults to 1.

`json.dfy` holds the small part of Python's data model the adapter relies on:
- JSON values, with objects as ordered member lists;
- `d.get`, `d[k]` and `d[k] = v`;
- truthiness;
- `str()` as f-strings use it;
- the type names that appear in Python's exception messages.

`wrappers.dfy` holds `Option` and `Result`.

Two details of `app.py` the model keeps as written:
- `handle_tool_call` is a chain of `if name == ...` tests (app.py:239-304), and `KindOf` and `Shape` follow that chain.
- `process_mcp_message` defaults a missing `params.name` to `""` (app.py:330), and so does the model.

## Model

| member | source | states |
|---|---|---|
| Json.Get | app.py:239-301 | `d.get(k)` finds a value exactly when `k` is one of the dictionary's keys |
| Json.GetFindsFirst | app.py:239-301 | the value `d.get(k)` finds is the one stored with the first member whose key is `k` |
| Json.Truthy | app.py:247-260 | a value is truthy exactly when it is not `None`, `False`, `0`, `""`, `[]` or `{}` |
| Json.Str | app.py:243-304 | `str()` in an f-string inserts a string as it is, an int as its decimal text (`IntText`), `None` as `None` and booleans as `True`/`False` |
| Json.NatTextValue | app.py:60 | the decimal text of a natural number, as `str()` writes it in `"HTTP <code>"` and in interpolated ids, is a non-empty run of digits that, read most significant digit first, spells the number |
| Json.Put | app.py:36-38 | `d[k] = v` makes `k` map to `v`, leaves every other key's value unchanged, adds `k` to the keys, keeps the size and the order of the keys when `k` was present, and appends `(k, v)` when it was absent |
| Vercel.Truncate | app.py:60 | `s[:n]` is a prefix of `s` of length `min(len(s), n)` |
| Vercel.WithTeam | app.py:36-38 | with a team id, the query is the caller's parameters (none counting as empty) with `teamId` set to it and every other key unchanged; without one, the parameters are passed through exactly |
| Vercel.Outgoing | app.py:33-53 | a request goes out exactly when the method is GET, POST, PATCH, DELETE or PUT; the request carries that method, the base URL followed by the endpoint and the team-scoped query; only POST, PATCH and PUT carry the body |
| Vercel.Sent | app.py:40-53 | a call sends at most one request, and exactly one when the method is known |
| Vercel.Classify | app.py:55-62 | 204 gives `{"success": true}`; 200/201/202 give the decoded body, or `{"error": msg}` when decoding fails; any other status gives `{"error": "HTTP <code>", "details": text[:500]}`; a transport exception gives `{"error": msg}` |
| Vercel.Response | app.py:40-62 | an unknown method gives `{"error": "Unknown method: <m>"}`; a known one gives `Classify` of the server's answer to the request `Outgoing` describes |
| Vercel.ErrorDetailsArePrefix | app.py:59-60 | an error result's `details` is a prefix of the response text, at most 500 characters long |
| Vercel.Backend.constructor | app.py:23-25 | a new client has the configured team id and server and has sent nothing |
| Vercel.Backend.Request | app.py:27-62 | the log grows by exactly the requests `Sent` describes (none for an unknown method), and the result is `Classify` of the server's answer to that request |
| Registry.ToolJson | app.py:65-74 | a tool's JSON form carries its name under `"name"`; reading `inputSchema.required` back from it gives exactly the tool's required keys, in order, and finds no list where the definition has none |
| Registry.ToolsJson | app.py:64-234 | `TOOLS` as JSON is an array of fifteen objects; the `i`-th names the `i`-th registered tool and advertises exactly that tool's `required` list |
| Registry.NamesDistinct | app.py:64-234 | there are fifteen tools and their names are pairwise distinct |
| Dispatcher.FaultText | app.py:308-310 | `str(e)` of a KeyError is the repr of the missing key, and no exception's text is empty |
| Dispatcher.Index | app.py:243 | `args[key]` yields the value when the key is present, `KeyError(key)` when it is absent, and a non-KeyError fault when `args` is not a dict |
| Dispatcher.Lookup | app.py:240 | `args.get(key, default)` yields the value or the default, and a non-KeyError fault when `args` is not a dict |
| Dispatcher.ArgOr | app.py:247-250 | the value of a present key, or the default for an absent one |
| Dispatcher.ListProjects | app.py:239-240 | list_projects is `GET /v9/projects` with `limit` as given or 20 |
| Dispatcher.GetProject | app.py:242-243 | get_project succeeds exactly when the arguments are a dict with `project_id`, and is then `GET /v9/projects/<project_id>` with no body and no query |
| Dispatcher.DeleteProject | app.py:253-254 | delete_project succeeds exactly when the arguments are a dict with `project_id`, and is then `DELETE /v9/projects/<project_id>` with no body and no query |
| Dispatcher.GetDeployment | app.py:264-265 | get_deployment succeeds exactly when the arguments are a dict with `deployment_id`, and is then `GET /v13/deployments/<deployment_id>` with no body and no query |
| Dispatcher.CancelDeployment | app.py:267-268 | cancel_deployment succeeds exactly when the arguments are a dict with `deployment_id`, and is then `PATCH /v12/deployments/<deployment_id>/cancel` with no body and no query |
| Dispatcher.AddDomain | app.py:273-274 | add_domain succeeds exactly when the arguments are a dict with `project_id` and `domain`, and is then `POST /v10/projects/<project_id>/domains` with the body `{"name": domain}` and no query |
| Dispatcher.RemoveDomain | app.py:276-277 | remove_domain succeeds exactly when the arguments are a dict with `project_id` and `domain`, and is then `DELETE /v9/projects/<project_id>/domains/<domain>` with no body and no query |
| Dispatcher.ListEnvVars | app.py:279-280 | list_env_vars succeeds exactly when the arguments are a dict with `project_id`, and is then `GET /v9/projects/<project_id>/env` with no body and no query |
| Dispatcher.DeleteEnvVar | app.py:291-292 | delete_env_var succeeds exactly when the arguments are a dict with `project_id` and `env_id`, and is then `DELETE /v9/projects/<project_id>/env/<env_id>` with no body and no query |
| Dispatcher.GetUser | app.py:300-301 | get_user never fails, whatever the arguments, and is `GET /v2/user` with no body and no query |
| Dispatcher.CreateProject | app.py:245-251 | create_project is `POST /v10/projects`; its body has `name`, plus `framework` and `gitRepository` exactly when the corresponding argument is truthy, and no other key |
| Dispatcher.ListDeployments | app.py:256-262 | list_deployments is `GET /v6/deployments`; its query has `limit` as given or 10, plus `projectId` and `state` exactly when the corresponding argument is truthy, and no other key |
| Dispatcher.ListDomains | app.py:270-271 | list_domains is `GET /v5/domains` with `limit` as given or 20 |
| Dispatcher.CreateEnvVar | app.py:282-289 | create_env_var's body has exactly `key`, `value`, `target` and `type`; `type` is always `"encrypted"` and `target` defaults to production, preview and development |
| Dispatcher.Redeploy | app.py:294-298 | redeploy's body has exactly `deploymentId` and `target`, and `target` is always `"production"` |
| Dispatcher.KindOf | app.py:239-303 | a name selects a branch exactly when it is that branch's own name |
| Dispatcher.BuildRequest | app.py:238-304 | the dispatcher reports an unknown tool exactly when the name is not a registered tool name |
| Dispatcher.NamesListed | app.py:66-227 | the registry's names, spelled out in order |
| Dispatcher.BranchIffRegistered | app.py:239-303 | a name chooses a dispatcher branch exactly when it is a registered tool name |
| Dispatcher.BranchesDistinct | app.py:64-301 | every registered tool has a branch, and different tools have different branches |
| Dispatcher.RegistryBranches | app.py:64-301 | every registry entry's name chooses a branch, and the keys that branch indexes with `args[...]` are exactly the entry's `required` list |
| Dispatcher.ShapeFollowsTable | app.py:239-301 | given the keys it indexes, each branch makes a call with the table's method and path, and passes a query and a body exactly where the table says: a query only for list_projects, list_deployments and list_domains, a body only for create_project, add_domain, create_env_var and redeploy |
| Dispatcher.RegisteredToolDispatches | app.py:239-301 | a registered tool given its required arguments shapes a call with the table's method and path, arguments interpolated, and with a query and a body exactly where the table has them |
| Dispatcher.CancelDeploymentCall | app.py:267-268 | cancel_deployment is `PATCH /v12/deployments/<deployment_id>/cancel` with no body and no query |
| Dispatcher.ShapeFaultsOnMissing | app.py:243-298 | with a dict of arguments, a branch faults exactly when a key it indexes is absent, and the fault is the KeyError of such a key |
| Dispatcher.MissingRequiredFaults | app.py:64-298 | with a dict of arguments, a registered tool faults exactly when a key its schema requires is absent, and the fault names a required, absent key |
| Dispatcher.ShapeRejectsNonObject | app.py:239-301 | arguments that are not a dict make every branch except get_user's fault, and never with a KeyError |
| Dispatcher.NonObjectArguments | app.py:239-301 | arguments that are not a dict make every registered tool except get_user fault, and never with a KeyError |
| Dispatcher.ShapeWellFormed | app.py:239-301 | every shaped call uses a method the client knows, has a body only with POST, and has no query keys other than `limit`, `projectId` and `state` |
| Dispatcher.ReadyCallsWellFormed | app.py:239-301 | the same, for the dispatcher's result for any name |
| Dispatcher.OneCallPerToolCall | app.py:236-306 | a tool call sends no request unless a call was shaped; then it sends exactly one, with the call's method, URL and team-scoped query, and the body only for POST |
| Dispatcher.TeamScoping | app.py:36-38 | with a team id, every request a tool call sends carries it as `teamId`; without one, no request carries `teamId` |
| Dispatcher.ContentReads | app.py:306 | a successful result carries its text and no error flag |
| Dispatcher.ErrorContentReads | app.py:304 | an error result carries its text and the error flag |
| Dispatcher.ErrorFlagOnlyForLocalFaults | app.py:303-310 | `isError` is set exactly when no call was shaped; the text is `Unknown tool: <name>`, `Error: <message>`, or the serialised client result, which is never flagged, whatever it says |
| Dispatcher.UnknownToolReported | app.py:303-304 | an unregistered name gives a flagged `Unknown tool: <name>` and sends nothing |
| Dispatcher.MissingKeyText | app.py:308-310 | a KeyError is reported as the flagged text `Error: '<key>'`, and nothing is sent |
| Dispatcher.MissingKeyReported | app.py:243-310 | a registered tool missing a required argument gives a flagged text starting with `Error: ` that quotes a missing required key, and sends nothing |
| Dispatcher.RegisteredToolCalls | app.py:239-306 | a registered tool given its required arguments sends exactly one request, with the table's method and URL; the result is not flagged and its text is the serialised `Classify` of the server's answer |
| Dispatcher.ToolCallResult | app.py:303-310 | every tool-call result carries one text item, and it is flagged `isError` exactly when no backend call was shaped |
| Dispatcher.HandleToolCall | app.py:236-310 | the log grows by exactly the requests `CallsMade` describes, and the result is `ToolCallResult` for the log as it was before |
| Mcp.Envelope | app.py:318-335 | a response is `{"jsonrpc": "2.0", "id": id, member: body}` with exactly those three keys |
| Mcp.Route | app.py:313-335 | every branch taken for a dict message carries the request id, and method-not-found is chosen only for a method outside the four known ones, which it names |
| Mcp.RouteRejectsOnlyNonObjects | app.py:313-330 | the router raises exactly for a message that is not a dict, or a `tools/call` whose `params` is not a dict, with the message of the failed `.get`; every other message is answered under its own id, 1 when it has none |
| Mcp.RouteNotFoundIffUnknown | app.py:317-335 | a message goes to method-not-found exactly when its method is none of the four known methods |
| Mcp.AnswerIsEnvelope | app.py:317-335 | every answer except a raised exception is a JSON-RPC 2.0 envelope under the action's id, carrying `error` for an unknown method and `result` otherwise |
| Mcp.ResponseEchoesId | app.py:315-335 | every response echoes the request id (1 when absent) and carries `error` exactly when the method is unknown, `result` otherwise |
| Mcp.MethodNotFoundReads | app.py:335 | the method-not-found error has code -32601 and the message `Method not found: <method>` |
| Mcp.UnknownMethodNotFound | app.py:334-335 | an unknown method gets that error, no `result`, and sends nothing |
| Mcp.ToolsListStable | app.py:327-328 | `tools/list` answers `{"tools": TOOLS}` unchanged and sends nothing; two such messages with the same id get the same response whatever came before |
| Mcp.ToolsCallForwards | app.py:329-331 | `tools/call` passes `name` (default `""`) and `arguments` (default `{}`) to the dispatcher, answers its result under the request id, and sends exactly the requests the dispatcher sends |
| Mcp.OnlyToolCallsSend | app.py:312-335 | only `tools/call` sends requests, and it sends at most one |
| Mcp.InitializeFixed | app.py:317-326 | `initialize` answers the fixed server descriptor under the request id and sends nothing |
| Mcp.InitializedAcknowledged | app.py:332-333 | `notifications/initialized` answers the empty result `{}` under the request id and sends nothing |
| Mcp.ListedRequirementsEnforced | app.py:64-301 | the `i`-th tool `tools/list` reports names the `i`-th registered tool, and a call of it with a dict of arguments fails locally exactly when a key listed under its `required` is absent |
| Mcp.ProcessMessage | app.py:312-335 | the log grows by exactly the requests `MessageCalls` describes, and the outcome is `MessageOutcome` for the log as it was before |

## Left out

- HTTP transport: `httpx.Client`, the 30-second timeout and the `Authorization`/`Content-Type` headers (app.py:29-33, 41-51). The network is the backend's `server` function, which answers each request given the requests sent before it, or fails with a message. It is deterministic in that history.
- `json.dumps(result, indent=2, default=str)` (app.py:306) is the parameter `dumps`. Its text, and any exception it could raise, are not modelled.
- `str()` of a non-string JSON value in an f-string is Python's `repr`, simplified: strings inside lists and dicts are quoted without escaping.
- The TypeError messages for indexing a list, a string or another non-dict follow Python 3.11's wording.
- JSON numbers are integers. Floats are not modelled.
- Duplicate keys in a JSON object. `Json` stands for the value after `json.loads`, whose dicts have unique keys, so a `Dict` with a repeated key never reaches the code. Python keeps the last of several duplicates, so `{"method": "bogus", "method": "tools/list"}` is a `tools/list` message to the program; `Get` on such a `Dict` would find the first one instead.
- Vercel.Backend.Request: the in-place update of the caller's `params` dictionary is not modelled. That is the aliasing effect of `params["teamId"] = ...`. Every caller in app.py passes a fresh dictionary, so it cannot be observed there.
- The Flask routes `health` and `mcp_handler` (app.py:337-357) are transport plumbing:
  - the -32700 parse error and HTTP 400;
  - the -32603 internal error and HTTP 500;
  - `jsonify`.

  An exception escaping `process_mcp_message` is the outcome `Raised` with the exception's text.
- Reading the configuration from the environment, CORS, logging (including `logger.error` at app.py:309) and `app.run` (app.py:17-24, 359-362). The team id is the backend's `teamId`, empty when unset.

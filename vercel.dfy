/**
  The backend client `vercel_request` (app.py:27-62): it adds the configured team id
  to the query parameters, issues one HTTP request for a known method, and maps the
  HTTP outcome to a result dictionary.

  The network is not modelled; a `Backend` is given a `server` function that answers
  each request (it may depend on every request sent before), and it records in `log`
  every request `vercel_request` sends or tries to send, including those whose
  sending fails.
*/
module Vercel {
  import opened Wrappers
  import opened Json

  const BaseUrl: string := "https://api.vercel.com"

  /** The methods `vercel_request` knows how to send. */
  const Verbs: seq<string> := ["GET", "POST", "PATCH", "DELETE", "PUT"]

  /** The statuses that count as success. */
  const Accepted: set<int> := {200, 201, 202, 204}

  /** How many characters of an error response's text are kept. */
  const DetailsLimit: nat := 500

  /** A request as it reaches the network: method, full URL, query parameters and JSON body. */
  datatype HttpRequest = HttpRequest(verb: string, url: string, query: Option<Dict>, body: Option<Json>)

  /**
    What the network gives back: a response (its status, the outcome of
    `response.json()` — a value or the decoding error's message — and its text),
    or the message of an exception raised while sending (timeout, connection error).
  */
  datatype HttpResponse =
    | Received(status: int, json: Result<Json, string>, text: string)
    | Failed(message: string)

  /** The answer to a request, given the requests sent before it. */
  type Server = (seq<HttpRequest>, HttpRequest) -> HttpResponse

  /** `{"error": message}` */
  function ErrorObject(message: string): Json {
    JObj([("error", JStr(message))])
  }

  /** `s[:n]` */
  function Truncate(s: string, n: nat): (r: string)
    ensures r <= s
    ensures |r| == if |s| <= n then |s| else n
  {
    if |s| <= n then s else s[..n]
  }

  /**
    The query parameters actually sent (app.py:36-38): with a team id configured,
    the caller's parameters (none counting as empty) with `teamId` set to it;
    otherwise the caller's parameters exactly as given.
  */
  function WithTeam(teamId: string, params: Option<Dict>): (q: Option<Dict>)
    ensures teamId == "" ==> q == params
    ensures teamId != "" ==> q.Some? && Get(q.value, "teamId") == Some(JStr(teamId))
    ensures teamId != "" ==> forall k :: k != "teamId" ==> Get(q.value, k) == Get(params.GetOr([]), k)
    ensures teamId != "" ==> Keys(q.value) == Keys(params.GetOr([])) + {"teamId"}
  {
    if teamId == "" then params else Some(Put(params.GetOr([]), "teamId", JStr(teamId)))
  }

  /**
    The request `vercel_request(verb, endpoint, data, params)` puts on the network,
    or None for a method it does not know (app.py:42-53). GET and DELETE send no
    body; POST, PATCH and PUT send `data`.
  */
  function Outgoing(teamId: string, verb: string, endpoint: string, data: Option<Json>, params: Option<Dict>): (r: Option<HttpRequest>)
    ensures r.Some? <==> verb in Verbs
    ensures r.Some? ==> r.value.verb == verb && r.value.url == BaseUrl + endpoint
    ensures r.Some? ==> r.value.query == WithTeam(teamId, params)
    ensures r.Some? ==> r.value.body == if verb in ["POST", "PATCH", "PUT"] then data else None
  {
    var query := WithTeam(teamId, params);
    if verb == "GET" || verb == "DELETE" then Some(HttpRequest(verb, BaseUrl + endpoint, query, None))
    else if verb == "POST" || verb == "PATCH" || verb == "PUT" then Some(HttpRequest(verb, BaseUrl + endpoint, query, data))
    else None
  }

  /** The requests one call of `vercel_request` sends: one or none. */
  function Sent(teamId: string, verb: string, endpoint: string, data: Option<Json>, params: Option<Dict>): (s: seq<HttpRequest>)
    ensures |s| <= 1
    ensures |s| == 1 <==> verb in Verbs
  {
    match Outgoing(teamId, verb, endpoint, data, params)
    case Some(request) => [request]
    case None => []
  }

  /** The result dictionary for an HTTP outcome (app.py:55-62). */
  function Classify(response: HttpResponse): (r: Json)
    ensures response.Failed? ==> r == ErrorObject(response.message)
    ensures response.Received? && response.status == 204 ==> r == JObj([("success", JBool(true))])
    ensures response.Received? && response.status in {200, 201, 202} ==>
              r == match response.json case Ok(body) => body case Err(m) => ErrorObject(m)
    ensures response.Received? && response.status !in Accepted ==>
              r == JObj([("error", JStr("HTTP " + IntText(response.status))),
                         ("details", JStr(Truncate(response.text, DetailsLimit)))])
  {
    match response
    case Failed(message) => ErrorObject(message)
    case Received(status, json, text) =>
      if status in Accepted then
        if status == 204 then JObj([("success", JBool(true))])
        else match json
          case Ok(body) => body
          case Err(message) => ErrorObject(message)
      else
        JObj([("error", JStr("HTTP " + IntText(status))), ("details", JStr(Truncate(text, DetailsLimit)))])
  }

  /** The result `vercel_request` returns, given the server and the requests sent before. */
  function Response(teamId: string, server: Server, history: seq<HttpRequest>,
                    verb: string, endpoint: string, data: Option<Json>, params: Option<Dict>): (r: Json)
    ensures verb !in Verbs ==> r == ErrorObject("Unknown method: " + verb)
    ensures verb in Verbs ==> r == Classify(server(history, Outgoing(teamId, verb, endpoint, data, params).value))
  {
    match Outgoing(teamId, verb, endpoint, data, params)
    case Some(request) => Classify(server(history, request))
    case None => ErrorObject("Unknown method: " + verb)
  }

  /** An error response keeps at most 500 characters of the text, and they are its beginning. */
  lemma ErrorDetailsArePrefix(status: int, json: Result<Json, string>, text: string)
    requires status !in Accepted
    ensures var r := Classify(Received(status, json, text));
            r.JObj? && Get(r.fields, "error") == Some(JStr("HTTP " + IntText(status))) &&
            exists d :: Get(r.fields, "details") == Some(JStr(d)) && d <= text && |d| <= 500
  {
    var d := Truncate(text, DetailsLimit);
    assert Get(Classify(Received(status, json, text)).fields, "details") == Some(JStr(d));
  }

  /** A Backend is the configured client together with the requests it has sent. */
  class Backend {
    /** VERCEL_TEAM_ID; empty when unset. */
    const teamId: string
    const server: Server
    /** Every request sent or tried, oldest first, including those whose sending failed. */
    var log: seq<HttpRequest>

    constructor (teamId: string, server: Server)
      ensures this.teamId == teamId && this.server == server && log == []
    {
      this.teamId := teamId;
      this.server := server;
      log := [];
    }

    /** `vercel_request(verb, endpoint, data, params)`. */
    method Request(verb: string, endpoint: string, data: Option<Json>, params: Option<Dict>) returns (result: Json)
      modifies this`log
      ensures log == old(log) + Sent(teamId, verb, endpoint, data, params)
      ensures result == Response(teamId, server, old(log), verb, endpoint, data, params)
    {
      var url := BaseUrl + endpoint;
      var query := params;
      if teamId != "" {
        var q := if query.Some? then query.value else [];
        q := Put(q, "teamId", JStr(teamId));
        query := Some(q);
      }
      var request: HttpRequest;
      if verb == "GET" {
        request := HttpRequest(verb, url, query, None);
      } else if verb == "POST" {
        request := HttpRequest(verb, url, query, data);
      } else if verb == "PATCH" {
        request := HttpRequest(verb, url, query, data);
      } else if verb == "DELETE" {
        request := HttpRequest(verb, url, query, None);
      } else if verb == "PUT" {
        request := HttpRequest(verb, url, query, data);
      } else {
        return ErrorObject("Unknown method: " + verb);
      }
      var response := server(log, request);
      log := log + [request];
      result := Classify(response);
    }
  }
}

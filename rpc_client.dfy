/** `call_mcp_tool`: one JSON-RPC 2.0 call to a registered tool server. The
    HTTP exchange is a parameter (`post`); what the client decides before and
    after it is modelled here. Each raised exception becomes `Err(str(e))`. */
module RpcClient {
  import opened Wrappers
  import opened JsonValue
  import opened Config

  /** What `requests.post(url, json=payload)` is given. */
  datatype Request = Request(url: string, payload: Json)

  /** What `requests.post` gives back: a response with its status code and
      text, or a raised transport exception with its message. */
  datatype HttpOutcome = Response(status: int, text: string) | TransportFailure(message: string)

  /** One client call: the request posted, if any, and the value returned or
      the text of the exception raised. */
  datatype Call = Call(sent: Option<Request>, result: Result<Json, string>)

  /** The JSON-RPC 2.0 request body, keys in the order the source writes them. */
  function Payload(action: string, params: Json): (p: Json)
    ensures p.JObject? && Keys(p.members) == ["jsonrpc", "method", "params", "id"]
  {
    JObject([("jsonrpc", JString("2.0")), ("method", JString(action)), ("params", params), ("id", JNumber("1"))])
  }

  /** The payload's members carry the protocol marker, the tool as method, the
      parsed arguments unchanged, and the fixed request id 1. */
  lemma PayloadFields(action: string, params: Json)
    ensures Get(Payload(action, params).members, "jsonrpc") == Some(JString("2.0"))
    ensures Get(Payload(action, params).members, "method") == Some(JString(action))
    ensures Get(Payload(action, params).members, "params") == Some(params)
    ensures Get(Payload(action, params).members, "id") == Some(JNumber("1"))
  {
    var m := Payload(action, params).members;
    assert LastIndex(m, "id") == Some(3);
    assert LastIndex(m, "params") == Some(2);
    assert LastIndex(m[..3], "method") == Some(1);
    assert LastIndex(m, "method") == Some(1);
    assert LastIndex(m[..2], "jsonrpc") == Some(0);
    assert LastIndex(m[..3], "jsonrpc") == Some(0);
    assert LastIndex(m, "jsonrpc") == Some(0);
  }

  /** The registry lookup that precedes any network activity. */
  function PrepareCall(serverKey: string, action: string, params: Json): (r: Result<Request, string>)
    ensures r.Err? <==> serverKey !in McpServers
    ensures r.Err? ==> r.error == "Unknown server: " + serverKey
    ensures r.Ok? ==> r.value.url == McpServers[serverKey] && r.value.payload == Payload(action, params)
  {
    if serverKey in McpServers && McpServers[serverKey] != "" then
      Ok(Request(McpServers[serverKey], Payload(action, params)))
    else
      Err("Unknown server: " + serverKey)
  }

  /** The text of the `AttributeError` that `.get` raises on a decoded body
      that is not a JSON object. */
  function NoGetMessage(body: Json): string
  {
    "'" + PyTypeName(body) + "' object has no attribute 'get'"
  }

  /** What the client makes of the HTTP outcome: on status 200 the body's
      `result` member (JSON null when it has none), otherwise an error. */
  function ReadResponse(action: string, outcome: HttpOutcome, loads: string -> Result<Json, string>)
    : (r: Result<Json, string>)
    ensures outcome.TransportFailure? ==> r == Err(outcome.message)
    ensures outcome.Response? && outcome.status != 200 ==>
      r == Err("Error calling " + action + ": " + outcome.text)
    ensures outcome.Response? && outcome.status == 200 ==>
      (r.Ok? <==> loads(outcome.text).Ok? && loads(outcome.text).value.JObject?)
  {
    match outcome
    case TransportFailure(message) => Err(message)
    case Response(status, text) =>
      if status == 200 then
        match loads(text)
        case Err(message) => Err(message)
        case Ok(JObject(members)) =>
          Ok(match Get(members, "result") case Some(v) => v case None => JNull)
        case Ok(body) => Err(NoGetMessage(body))
      else
        Err("Error calling " + action + ": " + text)
  }

  /** A 200 response whose body has no `result` member gives JSON null, the
      value of `dict.get` for a missing key, rather than an error. */
  lemma MissingResultIsNull(action: string, text: string, members: seq<(string, Json)>,
                            loads: string -> Result<Json, string>)
    requires loads(text) == Ok(JObject(members))
    requires "result" !in Keys(members)
    ensures ReadResponse(action, Response(200, text), loads) == Ok(JNull)
  {
  }

  /** A 200 response returns the value of the last `result` member of the body. */
  lemma LastResultReturned(action: string, text: string, members: seq<(string, Json)>, i: nat,
                           loads: string -> Result<Json, string>)
    requires loads(text) == Ok(JObject(members))
    requires i < |members| && members[i].0 == "result"
    requires forall j :: i < j < |members| ==> members[j].0 != "result"
    ensures ReadResponse(action, Response(200, text), loads) == Ok(members[i].1)
  {
    var l := LastIndex(members, "result");
    assert l.Some?;
    assert l.value == i;
  }

  /** `call_mcp_tool(server_key, action, params)`: `post` performs the single
      HTTP exchange. An unknown key fails before anything is posted; a known
      key posts exactly the JSON-RPC request to that server's URL. */
  function CallMcpTool(serverKey: string, action: string, params: Json,
                       post: Request -> HttpOutcome, loads: string -> Result<Json, string>): (c: Call)
    ensures c.sent.None? <==> serverKey !in McpServers
    ensures c.sent.None? ==> c.result == Err("Unknown server: " + serverKey)
    ensures c.sent.Some? ==>
      c.sent.value == Request(McpServers[serverKey], Payload(action, params))
      && c.result == ReadResponse(action, post(c.sent.value), loads)
  {
    match PrepareCall(serverKey, action, params)
    case Err(message) => Call(None, Err(message))
    case Ok(request) => Call(Some(request), ReadResponse(action, post(request), loads))
  }
}

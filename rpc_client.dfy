/** `UnityMcpClient`, the Python test client that talks JSON-RPC 2.0 to the Unity server over
    one line-delimited TCP stream: numbered requests, notifications without an id, and a
    scan of the incoming messages for the reply to the request just sent. */
module RpcClient {
  import opened Base
  import opened Json

  type Object = map<string, JsonValue>

  /** What the client writes. */
  datatype Message =
    | Request(methodName: string, params: Option<Object>, id: nat)
    | Notification(methodName: string, params: Option<Object>)

  /** Python truthiness of an optional dict: `None` and `{}` are false. */
  predicate Truthy(params: Option<Object>)
  {
    params.Some? && params.value != map[]
  }

  /** The JSON object `json.dumps` writes for a message: `"params"` only when the parameters
      are truthy, `"id"` only on a request. */
  function Encode(m: Message): JsonValue
  {
    var base := map["jsonrpc" := JString("2.0"), "method" := JString(m.methodName)];
    var withId := if m.Request? then base["id" := JNumber(m.id as real)] else base;
    JObject(if Truthy(m.params) then withId["params" := JObject(m.params.value)] else withId)
  }

  /** Python's `response.get("id") == current_id` for a decoded JSON id: numbers compare by
      value (1.0 equals 1), `true` equals 1 and `false` equals 0, anything else is unequal. */
  predicate IdEquals(response: Object, id: int)
  {
    "id" in response &&
    match response["id"] {
      case JNumber(x) => x == id as real
      case JBool(b) => (if b then 1 else 0) == id
      case _ => false
    }
  }

  /** How a request ends. */
  datatype RpcOutcome =
    | Returned(result: JsonValue)   // the "result" of the reply
    | RpcError(error: JsonValue)    // `Exception("RPC Error: ...")` with the reply's "error"
    | ConnectionClosed              // `ConnectionError("Connection closed by server")`
    | NotAnObject                   // `result.get` on a result that is not a dict

  /** A message the scan passes over: non-empty and neither an error nor a result for `id`. */
  predicate Skipped(m: Object, id: int)
  {
    m != map[] && !("error" in m && IdEquals(m, id)) && !("result" in m && IdEquals(m, id))
  }

  /** The scan for the reply to request `id` over the incoming messages `s`: the outcome and
      the messages left unread. The end of the stream and an empty object both close the
      connection; a matching error is checked before a matching result. */
  function Await(id: int, s: seq<Object>): (r: (RpcOutcome, seq<Object>))
    ensures |r.1| <= |s| && r.1 == s[|s| - |r.1|..]
    ensures var k := |s| - |r.1|;
      && r.0 != NotAnObject
      && (forall j :: 0 <= j < k - 1 ==> Skipped(s[j], id))
      && (r.0.Returned? ==> k > 0 && "result" in s[k - 1] && "error" !in s[k - 1] && IdEquals(s[k - 1], id)
                            && r.0.result == s[k - 1]["result"])
      && (r.0.RpcError? ==> k > 0 && "error" in s[k - 1] && IdEquals(s[k - 1], id) && r.0.error == s[k - 1]["error"])
      && (r.0.ConnectionClosed? ==> (r.1 == [] && forall j :: 0 <= j < |s| ==> Skipped(s[j], id))
                                    || (k > 0 && s[k - 1] == map[]))
    decreases |s|
  {
    if s == [] then (ConnectionClosed, [])
    else
      var m := s[0];
      if m == map[] then (ConnectionClosed, s[1..])
      else if "error" in m && IdEquals(m, id) then (RpcError(m["error"]), s[1..])
      else if "result" in m && IdEquals(m, id) then (Returned(m["result"]), s[1..])
      else
        var r := Await(id, s[1..]);
        assert s[1..][|s[1..]| - |r.1|..] == s[|s| - |r.1|..];
        r
  }

  /** The ids of the requests among `sent`, in order. */
  function RequestIds(sent: seq<Message>): seq<nat>
  {
    if sent == [] then []
    else RequestIds(sent[..|sent| - 1]) + (if sent[|sent| - 1].Request? then [sent[|sent| - 1].id] else [])
  }

  /** 1, 2, ..., n. */
  function Upto(n: nat): (r: seq<nat>)
    ensures |r| == n && forall i :: 0 <= i < n ==> r[i] == i + 1
  {
    if n == 0 then [] else Upto(n - 1) + [n]
  }

  class UnityMcpClient {
    var msgId: nat
    var connected: bool
    /** Every message written to the server, in order. */
    var sent: seq<Message>
    /** The messages the server has written that are still unread. */
    var incoming: seq<Object>

    /** The requests sent so far are numbered 1, 2, ..., `msgId`. */
    predicate Valid()
      reads this
    {
      RequestIds(sent) == Upto(msgId)
    }

    constructor (incoming: seq<Object>)
      ensures msgId == 0 && !connected && sent == [] && this.incoming == incoming && Valid()
    {
      msgId := 0;
      connected := false;
      sent := [];
      this.incoming := incoming;
    }

    /** `_send_request`: numbers the request with the next id, writes it, and reads until
        the reply to that id. */
    method SendRequest(methodName: string, params: Option<Object>) returns (r: RpcOutcome)
      requires Valid()
      modifies this
      ensures Valid()
      ensures msgId == old(msgId) + 1
      ensures sent == old(sent) + [Request(methodName, params, msgId)]
      ensures (r, incoming) == Await(msgId, old(incoming))
      ensures connected == old(connected)
    {
      msgId := msgId + 1;
      var currentId := msgId;
      RequestIdsAppend(sent, Request(methodName, params, currentId));
      sent := sent + [Request(methodName, params, currentId)];
      while true
        invariant msgId == currentId == old(msgId) + 1 && connected == old(connected)
        invariant sent == old(sent) + [Request(methodName, params, currentId)] && Valid()
        invariant Await(currentId, incoming) == Await(currentId, old(incoming))
        decreases |incoming|
      {
        if incoming == [] {
          return ConnectionClosed;
        }
        var response := incoming[0];
        incoming := incoming[1..];
        if response == map[] {
          return ConnectionClosed;
        }
        if "error" in response && IdEquals(response, currentId) {
          return RpcError(response["error"]);
        }
        if "result" in response && IdEquals(response, currentId) {
          return Returned(response["result"]);
        }
      }
    }

    /** `_send_notification`: writes a message without an id and waits for nothing. */
    method SendNotification(methodName: string, params: Option<Object>)
      requires Valid()
      modifies this
      ensures Valid()
      ensures sent == old(sent) + [Notification(methodName, params)]
      ensures msgId == old(msgId) && incoming == old(incoming) && connected == old(connected)
    {
      RequestIdsAppend(sent, Notification(methodName, params));
      sent := sent + [Notification(methodName, params)];
    }

    /** The handshake of `connect` once the socket is open: an `initialize` request, then,
        only if it returned, the `notifications/initialized` notification. */
    method Connect() returns (r: RpcOutcome)
      requires Valid()
      modifies this
      ensures Valid()
      ensures msgId == old(msgId) + 1
      ensures (r, incoming) == Await(msgId, old(incoming))
      ensures r.Returned? ==> connected && sent == old(sent) + [Request("initialize", Some(InitializeParams()), msgId),
                                                                 Notification("notifications/initialized", None)]
      ensures !r.Returned? ==> connected == old(connected) && sent == old(sent) + [Request("initialize", Some(InitializeParams()), msgId)]
    {
      ghost var before := sent;
      r := SendRequest("initialize", Some(InitializeParams()));
      ghost var request := Request("initialize", Some(InitializeParams()), msgId);
      assert sent == before + [request];
      if !r.Returned? {
        return;
      }
      SendNotification("notifications/initialized", None);
      assert sent == before + [request, Notification("notifications/initialized", None)];
      connected := true;
    }

    /** `list_tools`: the "tools" member of the result, or an empty list without one. */
    method ListTools() returns (r: RpcOutcome)
      requires Valid()
      modifies this
      ensures Valid()
      ensures msgId == old(msgId) + 1
      ensures sent == old(sent) + [Request("tools/list", None, msgId)]
      ensures var (raw, rest) := Await(msgId, old(incoming)); incoming == rest && r == ToolsOf(raw)
      ensures connected == old(connected)
    {
      var result := SendRequest("tools/list", None);
      r := ToolsOf(result);
    }

    /** `call_tool`: the tool name and its arguments, an empty object when there are none. */
    method CallTool(name: string, arguments: Option<Object>) returns (r: RpcOutcome)
      requires Valid()
      modifies this
      ensures Valid()
      ensures msgId == old(msgId) + 1
      ensures sent == old(sent) + [Request("tools/call", Some(CallParams(name, arguments)), msgId)]
      ensures (r, incoming) == Await(msgId, old(incoming))
      ensures connected == old(connected)
    {
      r := SendRequest("tools/call", Some(CallParams(name, arguments)));
    }
  }

  function InitializeParams(): Object
  {
    map["protocolVersion" := JString("2024-11-05"),
        "capabilities" := JObject(map[]),
        "clientInfo" := JObject(map["name" := JString("SimplePythonClient"), "version" := JString("1.0")])]
  }

  /** `{"name": name, "arguments": arguments or {}}`. */
  function CallParams(name: string, arguments: Option<Object>): (p: Object)
    ensures p.Keys == {"name", "arguments"} && p["name"] == JString(name)
    ensures p["arguments"] == JObject(if arguments.Some? then arguments.value else map[])
  {
    map["name" := JString(name), "arguments" := JObject(if Truthy(arguments) then arguments.value else map[])]
  }

  /** `result.get("tools", [])` applied to the outcome of the request. */
  function ToolsOf(outcome: RpcOutcome): (r: RpcOutcome)
    ensures !outcome.Returned? ==> r == outcome
    ensures outcome.Returned? && !outcome.result.JObject? ==> r == NotAnObject
    ensures outcome.Returned? && outcome.result.JObject? ==>
      r == Returned(if "tools" in outcome.result.fields then outcome.result.fields["tools"] else JArray([]))
  {
    match outcome
    case Returned(JObject(fields)) => Returned(if "tools" in fields then fields["tools"] else JArray([]))
    case Returned(_) => NotAnObject
    case _ => outcome
  }

  // ---------------------------------------------------------------------------------------
  // Properties

  /** Requests carry their id, notifications carry none (section 4.1 of the JSON-RPC 2.0
      specification), and "params" is written exactly when the parameters are truthy. */
  lemma EncodingShape(m: Message)
    ensures Encode(m).JObject?
    ensures "id" in Encode(m).fields <==> m.Request?
    ensures m.Request? ==> Encode(m).fields["id"] == JNumber(m.id as real)
    ensures "params" in Encode(m).fields <==> m.params.Some? && m.params.value != map[]
    ensures Encode(m).fields["jsonrpc"] == JString("2.0") && Encode(m).fields["method"] == JString(m.methodName)
  {
  }

  /** A call always sends parameters, since they hold the tool name. */
  lemma CallParamsAlwaysSent(name: string, arguments: Option<Object>, id: nat)
    ensures "params" in Encode(Request("tools/call", Some(CallParams(name, arguments)), id)).fields
  {
    assert "name" in CallParams(name, arguments);
  }

  /** Appending one request with the next id keeps the numbering. */
  lemma RequestIdsAppend(sent: seq<Message>, m: Message)
    ensures RequestIds(sent + [m]) == RequestIds(sent) + (if m.Request? then [m.id] else [])
  {
    assert (sent + [m])[..|sent|] == sent;
  }

  /** The reply consumed is the first message that is empty, or an error or a result for
      the id; nothing after it is read. */
  lemma {:induction false} AwaitStopsAtFirstReply(id: int, s: seq<Object>, k: nat)
    requires k < |s| && (forall j :: 0 <= j < k ==> Skipped(s[j], id)) && !Skipped(s[k], id)
    ensures Await(id, s).1 == s[k + 1..]
    ensures Await(id, s).0 == Await(id, [s[k]]).0
    decreases k
  {
    if k > 0 {
      AwaitStopsAtFirstReply(id, s[1..], k - 1);
      assert s[1..][k..] == s[k + 1..];
    }
  }

  lemma SkipOne(id: int, s: seq<Object>)
    requires s != [] && Skipped(s[0], id)
    ensures Await(id, s) == Await(id, s[1..])
  {
  }

  /** Replies to other requests never affect the outcome: prefixing the stream with messages
      the scan skips changes nothing. */
  lemma {:induction false} SkippedMessagesIgnored(id: int, skipped: seq<Object>, s: seq<Object>)
    requires forall j :: 0 <= j < |skipped| ==> Skipped(skipped[j], id)
    ensures Await(id, skipped + s) == Await(id, s)
    decreases |skipped|
  {
    if skipped != [] {
      assert (skipped + s)[0] == skipped[0] && Skipped(skipped[0], id);
      assert (skipped + s)[1..] == skipped[1..] + s;
      SkipOne(id, skipped + s);
      SkippedMessagesIgnored(id, skipped[1..], s);
    } else {
      assert skipped + s == s;
    }
  }
}

// The JSON-RPC session of the simple front end (src/simple/json/session.cpp),
// as values. It has no logon and no state machine: `new_order_single` and
// `order_cancel_request` are answered with their `symbol` parameter, every
// other method with an error, and a request that throws closes the
// connection. Its replies are formatted by hand; two of the formats it uses
// are not the JSON they are meant to be, and both are modelled twice: as
// written (`...AsWritten`) and as evidently intended (`Reply`), which is what
// the session below uses.

module SimpleJsonModel {
  import opened Common
  import opened Json
  import Rest

  const NEW_ORDER_SINGLE: string := "new_order_single"
  const ORDER_CANCEL_REQUEST: string := "order_cancel_request"
  const UNKNOWN_METHOD: string := "unknown method"

  datatype ReplyKind = Result | Error

  // ---------------------------------------------------------------------------
  // The replies as written

  /** `send_result` as written: the `id` argument is the parsed JSON value
    * itself, so it is formatted as its own JSON text, and for a string id
    * that text (quotes included) is put inside a second pair of quotes. */
  function ResultAsWritten(message: string, id: Json): Option<string>
  {
    match id
    case JString(_) =>
      Some("{" + "\"jsonrpc\":\"" + JSONRPC_VERSION + "\"," + "\"result\":\"" + message + "\"," +
           "\"id\":\"" + Dump(id) + "\"" + "}")
    case JInteger(_) =>
      Some("{" + "\"jsonrpc\":\"" + JSONRPC_VERSION + "\"," + "\"result\":\"" + message + "\"," +
           "\"id\":" + Dump(id) + "}")
    case _ => None
  }

  /** `send_error` as written: the doubled braces of the format string put a
    * quote on each side of the brace that should open the error object. */
  function ErrorAsWritten(message: string, id: Json): Option<string>
  {
    match id
    case JString(_) =>
      Some("{" + "\"jsonrpc\":\"" + JSONRPC_VERSION + "\"," + "\"error\":\"{\"" + "\"message\":\"" + message + "\"" +
           "\"}," + "\"id\":\"" + Dump(id) + "\"" + "}")
    case JInteger(_) =>
      Some("{" + "\"jsonrpc\":\"" + JSONRPC_VERSION + "\"," + "\"error\":\"{\"" + "\"message\":\"" + message + "\"" +
           "\"}," + "\"id\":" + Dump(id) + "}")
    case _ => None
  }

  // ---------------------------------------------------------------------------
  // The replies as intended

  /** `{"jsonrpc":"2.0","error":{"message":"<message>"},"id":<id>}` */
  function ErrorText(message: string, echoedId: string): string
  {
    "{" + ("\"" + "jsonrpc" + "\":\"" + JSONRPC_VERSION + "\"") + "," +
    ("\"" + "error" + "\"" + ":" + ("{" + ("\"" + "message" + "\":\"" + message + "\"") + "}")) + "," +
    ("\"id\":" + echoedId) + "}"
  }

  /** The reply for a string or integer id, echoing it with its JSON type;
    * nothing for any other id. */
  function Reply(kind: ReplyKind, message: string, id: Json): Option<string>
  {
    match TypedId(id)
    case None => None
    case Some(echo) =>
      if kind == Result then Some(ReplyText("result", message, echo)) else Some(ErrorText(message, echo))
  }

  /** The object an error reply stands for. */
  function ErrorObject(message: string, id: Json): Json
  {
    JObject([Member("jsonrpc", JString(JSONRPC_VERSION)),
             Member("error", JObject([Member("message", JString(message))])), Member("id", id)])
  }

  // ---------------------------------------------------------------------------
  // Processing

  /** What a text message leads to: a reply (None when the id is neither a
    * string nor an integer), or closing the connection. */
  datatype Processed = Replied(reply: Option<string>) | Closed

  predicate IsOrderMethod(name: string)
  {
    name == NEW_ORDER_SINGLE || name == ORDER_CANCEL_REQUEST
  }

  /** `params.at("symbol")` read as a string; None when it throws. */
  function SymbolParam(params: Json): Option<string>
  {
    match FindKey(params, "symbol")
    case Some(JString(symbol)) => Some(symbol)
    case _ => None
  }

  /** `process`; `doc` is the JSON parser's result (None: not JSON). */
  function Process(doc: Option<Json>): Processed
  {
    if doc.None? then Closed
    else
      match ParseEnvelope(doc.value)
      case None => Closed
      case Some(env) =>
        if IsOrderMethod(env.name) then
          match SymbolParam(env.params)
          case None => Closed
          case Some(symbol) => Replied(Reply(Result, symbol, env.id))
        else Replied(Reply(Error, UNKNOWN_METHOD, env.id))
  }

  /** `open` is false once the session has closed its connection;
    * `toRemove` is the shared set of sessions waiting to be removed. */
  datatype Model = Model(open: bool, sent: seq<string>, http: seq<Rest.Outcome>, toRemove: set<nat>)

  function Accepted(toRemove: set<nat>): Model
  {
    Model(true, [], [], toRemove)
  }

  function AfterText(m: Model, doc: Option<Json>): Model
  {
    match Process(doc)
    case Closed => m.(open := false)
    case Replied(None) => m
    case Replied(Some(text)) => m.(sent := m.sent + [text])
  }

  function AfterBinary(m: Model): Model
  {
    m.(open := false)
  }

  function AfterDisconnected(m: Model, sessionId: nat): Model
  {
    m.(toRemove := m.toRemove + {sessionId})
  }

  /** `route`: a GET whose (prefix-stripped) path starts with `symbols` is
    * served, whatever follows. */
  function Route(request: Rest.HttpRequest, prefix: string, symbols: seq<string>): Rest.Outcome
  {
    if request.upgrade then Rest.Upgraded
    else
      var path := Rest.StripPrefix(request.path, prefix);
      if path == [] then Rest.Unanswered
      else if request.verb == Rest.Get && path[0] == Rest.SYMBOLS then Rest.SymbolsResponse(symbols)
      else Rest.Unanswered
  }

  function AfterHttpRequest(m: Model, request: Rest.HttpRequest, prefix: string, symbols: seq<string>): Model
  {
    m.(http := m.http + [Route(request, prefix, symbols)])
  }

  // ---------------------------------------------------------------------------
  // The replies: properties

  /** A reply is sent exactly for string and integer ids. */
  lemma ReplyNeedsEchoableId(kind: ReplyKind, message: string, id: Json)
    ensures Reply(kind, message, id).Some? <==> id.JString? || id.JInteger?
    ensures ResultAsWritten(message, id).Some? <==> id.JString? || id.JInteger?
    ensures ErrorAsWritten(message, id).Some? <==> id.JString? || id.JInteger?
  {
  }

  /** A result reply is the JSON text of {"jsonrpc": "2.0", "result":
    * message, "id": id} whenever the message and a string id need no
    * escaping. */
  lemma ResultIsJson(message: string, id: Json)
    requires Plain(message) && (id.JInteger? || (id.JString? && Plain(id.s)))
    ensures Reply(Result, message, id) ==
      Some(Dump(JObject([Member("jsonrpc", JString(JSONRPC_VERSION)), Member("result", JString(message)),
                         Member("id", id)])))
  {
    ReplyIsJson("result", message, id);
  }

  lemma ErrorMember(message: string)
    requires Plain(message)
    ensures MemberText(Member("error", JObject([Member("message", JString(message))]))) ==
      "\"" + "error" + "\"" + ":" + ("{" + ("\"" + "message" + "\":\"" + message + "\"") + "}")
  {
    EscapePlain("error");
    PlainMember("message", message);
    DumpOneMember(Member("message", JString(message)));
  }

  /** An error reply is the JSON text of ErrorObject whenever the message and
    * a string id need no escaping. */
  lemma ErrorIsJson(message: string, id: Json)
    requires Plain(message) && (id.JInteger? || (id.JString? && Plain(id.s)))
    ensures Reply(Error, message, id) == Some(Dump(ErrorObject(message, id)))
  {
    EchoIsJson(id);
    ErrorObjectText(message, id);
  }

  lemma ErrorObjectText(message: string, id: Json)
    requires Plain(message)
    ensures Dump(ErrorObject(message, id)) == ErrorText(message, Dump(id))
  {
    var a := Member("jsonrpc", JString(JSONRPC_VERSION));
    var b := Member("error", JObject([Member("message", JString(message))]));
    var c := Member("id", id);
    VersionMember();
    ErrorMember(message);
    IdMember(id);
    DumpThreeMembers(a, b, c);
  }

  /** As written, the value of "error" (from index 25 on, after
    * `{"jsonrpc":"2.0","error":`) is the complete string `"{"` followed at
    * once by another quote, which no JSON object allows; the intended reply
    * opens an object there. */
  lemma ErrorAsWrittenIsNotJson(message: string, id: Json)
    requires id.JString? || id.JInteger?
    ensures var t := ErrorAsWritten(message, id).value;
      |t| > 28 && t[25] == '"' && t[26] == '{' && t[27] == '"' && t[28] == '"'
  {
  }

  lemma ErrorOpensObject(message: string, id: Json)
    requires id.JString? || id.JInteger?
    ensures var t := Reply(Error, message, id).value;
      |t| > 25 && t[25] == '{'
  {
  }

  /** So the error reply as written is never the intended one. */
  lemma ErrorAsWrittenDiffers(message: string, id: Json)
    requires id.JString? || id.JInteger?
    ensures ErrorAsWritten(message, id) != Reply(Error, message, id)
  {
    ErrorAsWrittenIsNotJson(message, id);
    ErrorOpensObject(message, id);
    var t, u := ErrorAsWritten(message, id).value, Reply(Error, message, id).value;
    assert t[25] != u[25];
  }

  /** As written, a string id is echoed inside a second pair of quotes:
    * the id "a" comes back as `""a""`, two characters longer than the
    * intended echo `"a"`. */
  lemma StringIdAsWritten(message: string, s: string)
    requires Plain(s)
    ensures |ResultAsWritten(message, JString(s)).value| == |Reply(Result, message, JString(s)).value| + 2
    ensures |ErrorAsWritten(message, JString(s)).value| > |Reply(Error, message, JString(s)).value|
  {
    EscapePlain(s);
  }

  /** For integer ids the result reply as written is already the intended
    * one. */
  lemma IntegerIdResultAsIntended(message: string, i: JsonInt)
    ensures ResultAsWritten(message, JInteger(i)) == Reply(Result, message, JInteger(i))
  {
    var x := IntText(i);
    calc {
      ResultAsWritten(message, JInteger(i)).value;
      ("{" + "\"jsonrpc\":\"") + JSONRPC_VERSION + ("\"," + "\"result\":\"") + message + ("\"," + "\"id\":") + x + "}";
      { assert "{" + "\"jsonrpc\":\"" == "{\"jsonrpc\":\"";
        assert "\"," + "\"result\":\"" == "\",\"" + "result" + "\":\"";
        assert "\"," + "\"id\":" == "\",\"id\":"; }
      "{\"jsonrpc\":\"" + JSONRPC_VERSION + ("\",\"" + "result" + "\":\"") + message + "\",\"id\":" + x + "}";
      ReplyText("result", message, x);
    }
  }

  // ---------------------------------------------------------------------------
  // Processing: properties

  /** A message that is not JSON, or not a JSON-RPC 2.0 request, closes the
    * connection and sends nothing. */
  lemma BadEnvelopeCloses(m: Model, doc: Option<Json>)
    requires doc.None? || ParseEnvelope(doc.value).None?
    ensures AfterText(m, doc) == m.(open := false)
  {
  }

  /** For a conforming request: an order method is answered with its
    * `symbol` parameter, or closes the connection when that parameter is
    * missing or not a string; any other method gets "unknown method". */
  lemma RequestOutcomes(env: Envelope)
    ensures Process(Some(RequestDoc(env))) == Closed <==>
      IsOrderMethod(env.name) && SymbolParam(env.params).None?
    ensures IsOrderMethod(env.name) && SymbolParam(env.params).Some? ==>
      Process(Some(RequestDoc(env))) == Replied(Reply(Result, SymbolParam(env.params).value, env.id))
    ensures !IsOrderMethod(env.name) ==>
      Process(Some(RequestDoc(env))) == Replied(Reply(Error, UNKNOWN_METHOD, env.id))
  {
    EnvelopeRoundTrip(env);
  }

  /** `symbol` is read back from an object that has it as a string; an
    * object without it, or with a value of another type, throws. */
  lemma SymbolParamReads(params: Json)
    ensures SymbolParam(params).Some? <==> params.JObject? && FindKey(params, "symbol").Some? &&
                                            FindKey(params, "symbol").value.JString?
    ensures SymbolParam(JObject([Member("symbol", JString("BTC-USD"))])) == Some("BTC-USD")
  {
  }

  /** Disconnecting queues the session for removal, once. */
  lemma DisconnectedQueues(m: Model, sessionId: nat)
    ensures sessionId in AfterDisconnected(m, sessionId).toRemove
    ensures AfterDisconnected(AfterDisconnected(m, sessionId), sessionId) == AfterDisconnected(m, sessionId)
    ensures AfterDisconnected(m, sessionId).toRemove - {sessionId} == m.toRemove - {sessionId}
  {
  }

  /** A request is answered by this session exactly when it is a GET whose
    * path, once the prefix is dropped, starts with `symbols`; unlike the
    * proxy's JSON session, further path segments are ignored. */
  lemma RouteServesSymbols(request: Rest.HttpRequest, prefix: string, symbols: seq<string>)
    ensures !request.upgrade ==>
      (Route(request, prefix, symbols).Responded? <==>
         var path := Rest.StripPrefix(request.path, prefix);
         request.verb == Rest.Get && |path| > 0 && path[0] == Rest.SYMBOLS)
    ensures request.upgrade <==> Route(request, prefix, symbols) == Rest.Upgraded
    ensures Route(Rest.HttpRequest(false, Rest.Get, [Rest.SYMBOLS, "x"]), "", symbols) == Rest.SymbolsResponse(symbols)
  {
    Rest.StripPrefixDropsOnce([Rest.SYMBOLS, "x"], "x");
  }
}

// The JSON-RPC client session of src/roq/proxy/fix/client/json/session.cpp,
// as values. A websocket client logs on and off through the shared registry
// and sends order requests, which the session turns into FIX requests and
// hands to the controller under its username; every request is answered with
// a "result" or "error" reply that echoes the request's id. Anything that
// throws closes the session (ZOMBIE), and a zombie ignores all further input.
// The functions `After...` say how each event moves a `Model`; the class
// `JsonSession.Session` is proved to move its `View()` the same way.

module JsonSessionModel {
  import opened Common
  import opened Fix
  import opened Json
  import opened SessionRegistry
  import Error
  import Rest

  const UNKNOWN_METHOD: string := "UNKNOWN_METHOD"
  const SUCCESS: string := "success"
  const RESULT: string := "result"
  const ERROR: string := "error"

  datatype State = WaitingLogon | Ready | Zombie

  /** What the session writes to its websocket: a reply to a request, or a
    * notification carrying an upstream event (its formatting is not part of
    * this model). */
  datatype Outgoing = Reply(text: string) | Notification(event: Event)

  /** A request handed to the controller under the session's username. */
  datatype Upcall = Dispatch(request: Request, username: string)

  /** `open` is false once the session has closed its connection itself;
    * `http` records what the session did with each HTTP request. */
  datatype Model = Model(
    state: State,
    username: string,
    open: bool,
    sent: seq<Outgoing>,
    upcalls: seq<Upcall>,
    http: seq<Rest.Outcome>,
    registry: Registry)

  function Accepted(registry: Registry): Model
  {
    Model(WaitingLogon, "", true, [], [], [], registry)
  }

  // ---------------------------------------------------------------------------
  // Reading parameters (`map<T>` and `get<T>`); None stands for the
  // exception they throw

  function MapOrdType(value: string): Option<OrdType>
  {
    if value == "MARKET" then Some(Market) else if value == "LIMIT" then Some(Limit) else None
  }

  function MapSide(value: string): Option<Side>
  {
    if value == "BUY" then Some(Buy) else if value == "SELL" then Some(Sell) else None
  }

  function MapTimeInForce(value: string): Option<TimeInForce>
  {
    if value == "GTC" then Some(GoodTillCancel) else None
  }

  /** The names a client uses for the enumeration values. */
  function OrdTypeName(t: OrdType): string
  {
    match t
    case NoOrdType => ""
    case Market => "MARKET"
    case Limit => "LIMIT"
  }

  function SideName(s: Side): string
  {
    match s
    case NoSide => ""
    case Buy => "BUY"
    case Sell => "SELL"
  }

  function TimeInForceName(t: TimeInForce): string
  {
    match t
    case NoTimeInForce => ""
    case GoodTillCancel => "GTC"
  }

  /** `get<std::string_view>`: a missing key gives the empty text, a string
    * its text, anything else throws. */
  function GetString(params: Json, key: string): Option<string>
  {
    match FindKey(params, key)
    case None => Some("")
    case Some(JString(s)) => Some(s)
    case Some(_) => None
  }

  /** `get<utils::Number>`: a missing key gives no number, a string is a
    * number whose decimals are known, a JSON number one whose decimals are
    * not, anything else throws. */
  function GetNumber(params: Json, key: string): Option<Number>
  {
    match FindKey(params, key)
    case None => Some(NoNumber)
    case Some(JString(s)) => Some(NumberText(s))
    case Some(JInteger(i)) => Some(NumberValue(IntText(i)))
    case Some(JFloat(literal)) => Some(NumberValue(literal))
    case Some(_) => None
  }

  /** `get<T>` for an enumeration: a missing key gives `absent`, a string is
    * mapped by `names`, anything else throws. */
  function GetEnum<T>(params: Json, key: string, names: string -> Option<T>, absent: T): Option<T>
  {
    match FindKey(params, key)
    case None => Some(absent)
    case Some(JString(s)) => names(s)
    case Some(_) => None
  }

  // ---------------------------------------------------------------------------
  // Building the FIX requests

  const ORDER_STATUS_REQUEST: string := "order_status_request"
  const NEW_ORDER_SINGLE: string := "new_order_single"
  const ORDER_CANCEL_REQUEST: string := "order_cancel_request"
  const ORDER_MASS_STATUS_REQUEST: string := "order_mass_status_request"

  /** The methods a READY session turns into FIX requests. */
  predicate IsOrderMethod(name: string)
  {
    name == ORDER_STATUS_REQUEST || name == NEW_ORDER_SINGLE || name == ORDER_CANCEL_REQUEST ||
    name == ORDER_MASS_STATUS_REQUEST
  }

  function OrderStatusFrom(params: Json): Option<Request>
  {
    var orderId := GetString(params, "order_id");
    var clOrdId := GetString(params, "cl_ord_id");
    var reqId := GetString(params, "ord_status_req_id");
    if orderId.None? || clOrdId.None? || reqId.None? then None
    else Some(OrderStatusRequest(reqId.value, orderId.value, clOrdId.value, []))
  }

  function NewOrderFrom(params: Json): Option<Request>
  {
    var clOrdId := GetString(params, "cl_ord_id");
    var exchange := GetString(params, "exchange");
    var symbol := GetString(params, "symbol");
    var side := GetEnum(params, "side", MapSide, NoSide);
    var quantity := GetNumber(params, "quantity");
    var ordType := GetEnum(params, "ord_type", MapOrdType, NoOrdType);
    var price := GetNumber(params, "price");
    var stopPx := GetNumber(params, "stop_px");
    var timeInForce := GetEnum(params, "time_in_force", MapTimeInForce, NoTimeInForce);
    if clOrdId.None? || exchange.None? || symbol.None? || side.None? || quantity.None? || ordType.None? ||
       price.None? || stopPx.None? || timeInForce.None?
    then None
    else Some(NewOrderSingle(clOrdId.value, [], Instrument(exchange.value, symbol.value), side.value,
                             quantity.value, ordType.value, price.value, stopPx.value, timeInForce.value))
  }

  function CancelFrom(params: Json): Option<Request>
  {
    var origClOrdId := GetString(params, "orig_cl_ord_id");
    var clOrdId := GetString(params, "cl_ord_id");
    var exchange := GetString(params, "exchange");
    var symbol := GetString(params, "symbol");
    if origClOrdId.None? || clOrdId.None? || exchange.None? || symbol.None? then None
    else Some(OrderCancelRequest(clOrdId.value, origClOrdId.value, [], Instrument(exchange.value, symbol.value)))
  }

  function MassStatusFrom(params: Json): Option<Request>
  {
    var reqId := GetString(params, "mass_status_req_id");
    if reqId.None? then None else Some(OrderMassStatusRequest(reqId.value, StatusForOrders, []))
  }

  /** The FIX request an order method asks for; None when reading a
    * parameter throws. */
  function OrderRequest(name: string, params: Json): (r: Option<Request>)
    requires IsOrderMethod(name)
  {
    if name == ORDER_STATUS_REQUEST then OrderStatusFrom(params)
    else if name == NEW_ORDER_SINGLE then NewOrderFrom(params)
    else if name == ORDER_CANCEL_REQUEST then CancelFrom(params)
    else MassStatusFrom(params)
  }

  // ---------------------------------------------------------------------------
  // Handlers

  /** `send_jsonrpc`: a reply echoing `id`, or nothing when the id is
    * neither a string nor an integer. */
  function AfterReply(m: Model, kind: string, message: string, id: Json): Model
  {
    match EchoedId(id)
    case None => m
    case Some(echo) => m.(sent := m.sent + [Reply(ReplyText(kind, message, echo))])
  }

  /** `close`: ZOMBIE, and the connection is closed. */
  function AfterClose(m: Model): Model
  {
    m.(state := Zombie, open := false)
  }

  /** `logon` for a session that is not READY; None when a credential is
    * present but not a string. */
  function AfterLogon(m: Model, sessionId: nat, params: Json, id: Json): Option<Model>
  {
    var username := GetString(params, "username");
    var password := GetString(params, "password");
    if username.None? || password.None? then None
    else Some(AfterCredentials(m, sessionId, username.value, password.value, id))
  }

  /** `session_logon` with the credentials read, and the reply its
    * callback sends. */
  function AfterCredentials(m: Model, sessionId: nat, username: string, password: string, id: Json): Model
  {
    var r := Logon(m.registry, sessionId, username, password);
    match LogonOutcomeOf(m.registry, username, password)
    case LoggedOn(_) => AfterReply(m.(state := Ready, username := username, registry := r), RESULT, SUCCESS, id)
    case LogonFailed(reason) => AfterReply(m.(registry := r), ERROR, reason, id)
  }

  /** `logout` of a READY session. */
  function AfterLogout(m: Model, sessionId: nat, id: Json): Model
  {
    var r := Logout(m.registry, sessionId);
    match LogoutOutcomeOf(m.registry, sessionId)
    case LoggedOut =>
      AfterReply(m.(state := if m.state == Ready then WaitingLogon else m.state, username := "", registry := r),
                 RESULT, SUCCESS, id)
    case LogoutFailed(reason) => AfterReply(m.(registry := r), ERROR, reason, id)
  }

  /** `dispatch` then "success"; when the upstream session is not READY the
    * controller's call throws NotReady and the reply is NOT_READY instead. */
  function AfterDispatch(m: Model, request: Request, id: Json, upstreamReady: bool): Model
  {
    var m1 := m.(upcalls := m.upcalls + [Dispatch(request, m.username)]);
    if upstreamReady then AfterReply(m1, RESULT, SUCCESS, id) else AfterReply(m1, ERROR, Error.NOT_READY, id)
  }

  /** `process_jsonrpc`: None when an exception other than NotReady escapes. */
  function AfterJsonRpc(m: Model, sessionId: nat, env: Envelope, upstreamReady: bool): Option<Model>
  {
    if env.name == "logon" then
      if m.state != Ready then AfterLogon(m, sessionId, env.params, env.id)
      else Some(AfterReply(m, ERROR, Error.ALREADY_LOGGED_ON, env.id))
    else if m.state != Ready then Some(AfterReply(m, ERROR, Error.NOT_LOGGED_ON, env.id))
    else if env.name == "logout" then Some(AfterLogout(m, sessionId, env.id))
    else if IsOrderMethod(env.name) then
      match OrderRequest(env.name, env.params)
      case None => None
      case Some(request) => Some(AfterDispatch(m, request, env.id, upstreamReady))
    else Some(AfterReply(m, ERROR, UNKNOWN_METHOD, env.id))
  }

  /** A websocket text message; `doc` is the parser's result (None: not
    * JSON). A zombie ignores it; a bad envelope or an escaping exception
    * closes the session. */
  function AfterText(m: Model, sessionId: nat, doc: Option<Json>, upstreamReady: bool): Model
  {
    if m.state == Zombie then m
    else
      var env := if doc.Some? then ParseEnvelope(doc.value) else None;
      if env.None? then AfterClose(m)
      else
        match AfterJsonRpc(m, sessionId, env.value, upstreamReady)
        case None => AfterClose(m)
        case Some(m') => m'
  }

  /** A binary websocket message is unexpected: close. */
  function AfterBinary(m: Model): Model
  {
    AfterClose(m)
  }

  /** The connection has gone: ZOMBIE, and the registry queues the session
    * for removal and drops its binding. */
  function AfterDisconnected(m: Model, sessionId: nat): Model
  {
    m.(state := Zombie, registry := Remove(m.registry, sessionId))
  }

  /** The events a client session can be handed. */
  predicate Deliverable(e: Event)
  {
    !e.TradeCaptureReportRequestAck? && !e.TradeCaptureReport?
  }

  /** Execution reports and business rejects become notifications unless
    * the session is a zombie; cancel rejects and mass cancel reports are
    * dropped; every other event is fatal ("not implemented"), given as
    * None. */
  function AfterEvent(m: Model, e: Event): Option<Model>
    requires Deliverable(e)
  {
    if e.ExecutionReport? || e.BusinessMessageReject? then
      if m.state == Zombie then Some(m) else Some(m.(sent := m.sent + [Notification(e)]))
    else if e.OrderCancelReject? || e.OrderMassCancelReport? then Some(m)
    else None
  }

  /** `route`: only GET of exactly `symbols` is served. */
  function Route(request: Rest.HttpRequest, prefix: string, symbols: seq<string>): Rest.Outcome
  {
    if request.upgrade then Rest.Upgraded
    else
      var path := Rest.StripPrefix(request.path, prefix);
      if path == [] then Rest.Unanswered
      else if request.verb == Rest.Get && |path| == 1 && path[0] == Rest.SYMBOLS then Rest.SymbolsResponse(symbols)
      else Rest.Unanswered
  }

  /** An HTTP request: a zombie ignores it. */
  function AfterHttpRequest(m: Model, request: Rest.HttpRequest, prefix: string, symbols: seq<string>): Model
  {
    if m.state == Zombie then m else m.(http := m.http + [Route(request, prefix, symbols)])
  }

  // ---------------------------------------------------------------------------
  // Invariant

  /** The registry binds this session exactly while it is READY, to the
    * username it logged on with; until it is a zombie its connection is
    * open. */
  ghost predicate Inv(m: Model, sessionId: nat)
  {
    Bijective(m.registry) &&
    (m.state == WaitingLogon ==> sessionId !in m.registry.sessionToUser && m.open) &&
    (m.state == Ready ==>
       sessionId in m.registry.sessionToUser && m.registry.sessionToUser[sessionId] == m.username && m.open)
  }

  lemma AcceptedInv(registry: Registry, sessionId: nat)
    requires Bijective(registry) && sessionId !in registry.sessionToUser
    ensures Inv(Accepted(registry), sessionId)
    ensures Accepted(registry).state == WaitingLogon && Accepted(registry).open
  {
  }

  lemma ReplyKeeps(m: Model, kind: string, message: string, id: Json)
    ensures var m' := AfterReply(m, kind, message, id);
      m'.state == m.state && m'.username == m.username && m'.open == m.open && m'.registry == m.registry &&
      m'.upcalls == m.upcalls && m'.http == m.http
    ensures EchoedId(id).None? ==> AfterReply(m, kind, message, id) == m
    ensures EchoedId(id).Some? ==>
      AfterReply(m, kind, message, id).sent == m.sent + [Reply(ReplyText(kind, message, EchoedId(id).value))]
  {
  }

  lemma LogonKeepsInv(m: Model, sessionId: nat, params: Json, id: Json)
    requires Inv(m, sessionId) && m.state == WaitingLogon
    ensures AfterLogon(m, sessionId, params, id).Some? ==> Inv(AfterLogon(m, sessionId, params, id).value, sessionId)
  {
    var username := GetString(params, "username");
    var password := GetString(params, "password");
    if username.Some? && password.Some? {
      LogonBinds(m.registry, sessionId, username.value, password.value);
      ReplyKeeps(m.(state := Ready, username := username.value,
                    registry := Logon(m.registry, sessionId, username.value, password.value)), RESULT, SUCCESS, id);
    }
  }

  lemma LogoutKeepsInv(m: Model, sessionId: nat, id: Json)
    requires Inv(m, sessionId) && m.state == Ready
    ensures Inv(AfterLogout(m, sessionId, id), sessionId)
  {
    UnbindKeepsBijection(m.registry, sessionId);
  }

  lemma JsonRpcKeepsInv(m: Model, sessionId: nat, env: Envelope, upstreamReady: bool)
    requires Inv(m, sessionId) && m.state != Zombie
    ensures AfterJsonRpc(m, sessionId, env, upstreamReady).Some? ==>
      Inv(AfterJsonRpc(m, sessionId, env, upstreamReady).value, sessionId)
  {
    if env.name == "logon" && m.state != Ready {
      LogonKeepsInv(m, sessionId, env.params, env.id);
    } else if env.name != "logon" && m.state == Ready && env.name == "logout" {
      LogoutKeepsInv(m, sessionId, env.id);
    }
  }

  lemma TextKeepsInv(m: Model, sessionId: nat, doc: Option<Json>, upstreamReady: bool)
    requires Inv(m, sessionId)
    ensures Inv(AfterText(m, sessionId, doc, upstreamReady), sessionId)
  {
    if m.state != Zombie {
      var env := if doc.Some? then ParseEnvelope(doc.value) else None;
      if env.Some? {
        JsonRpcKeepsInv(m, sessionId, env.value, upstreamReady);
      }
    }
  }

  lemma DisconnectedKeepsInv(m: Model, sessionId: nat)
    requires Inv(m, sessionId)
    ensures Inv(AfterDisconnected(m, sessionId), sessionId)
    ensures var r := AfterDisconnected(m, sessionId).registry;
      sessionId in r.toRemove && sessionId !in r.sessionToUser
  {
    RemoveQueuesAndIsIdempotent(m.registry, sessionId);
  }

  // ---------------------------------------------------------------------------
  // Properties

  /** The enumeration names are read back as the values they name, and
    * every other text is refused. */
  lemma EnumNamesRoundTrip(t: OrdType, s: Side, f: TimeInForce, text: string)
    ensures t != NoOrdType ==> MapOrdType(OrdTypeName(t)) == Some(t)
    ensures s != NoSide ==> MapSide(SideName(s)) == Some(s)
    ensures f != NoTimeInForce ==> MapTimeInForce(TimeInForceName(f)) == Some(f)
    ensures MapOrdType(text).Some? ==> MapOrdType(text).value != NoOrdType && OrdTypeName(MapOrdType(text).value) == text
    ensures MapSide(text).Some? ==> MapSide(text).value != NoSide && SideName(MapSide(text).value) == text
    ensures MapTimeInForce(text).Some? ==>
      MapTimeInForce(text).value != NoTimeInForce && TimeInForceName(MapTimeInForce(text).value) == text
  {
  }

  /** A missing key gives the default value of every kind of parameter, and
    * so does any key of `params` that is not an object. */
  lemma MissingKeyDefaults(params: Json, key: string)
    requires FindKey(params, key).None?
    ensures GetString(params, key) == Some("") && GetNumber(params, key) == Some(NoNumber)
    ensures GetEnum(params, key, MapSide, NoSide) == Some(NoSide)
    ensures GetEnum(params, key, MapOrdType, NoOrdType) == Some(NoOrdType)
    ensures GetEnum(params, key, MapTimeInForce, NoTimeInForce) == Some(NoTimeInForce)
  {
  }

  /** A present parameter of the wrong JSON type throws. */
  lemma WrongTypeThrows(params: Json, key: string)
    requires FindKey(params, key).Some? && !FindKey(params, key).value.JString?
    ensures GetString(params, key).None?
    ensures GetEnum(params, key, MapSide, NoSide).None?
    ensures GetEnum(params, key, MapOrdType, NoOrdType).None?
    ensures GetEnum(params, key, MapTimeInForce, NoTimeInForce).None?
    ensures GetNumber(params, key).None? <==> !FindKey(params, key).value.JInteger? && !FindKey(params, key).value.JFloat?
  {
  }

  /** An object whose members have the given keys and values, in order. */
  function ObjectOf(keys: seq<string>, values: seq<Json>): (j: Json)
    requires |keys| == |values|
    ensures j.JObject? && |j.members| == |keys|
    ensures forall i :: 0 <= i < |keys| ==> j.members[i] == Member(keys[i], values[i])
  {
    JObject(seq(|keys|, i requires 0 <= i < |keys| => Member(keys[i], values[i])))
  }

  /** The value at index `i` is what its key finds when no earlier key is
    * the same. */
  lemma FindKeyAt(keys: seq<string>, values: seq<Json>, i: nat)
    requires |keys| == |values| && i < |keys|
    requires forall j :: 0 <= j < i ==> keys[j] != keys[i]
    ensures FindKey(ObjectOf(keys, values), keys[i]) == Some(values[i])
  {
    FindAt(ObjectOf(keys, values).members, i);
  }

  const CANCEL_KEYS: seq<string> := ["orig_cl_ord_id", "cl_ord_id", "exchange", "symbol"]

  /** The parameters a conforming client sends for an order cancel. */
  function CancelParams(r: Request): Json
    requires r.OrderCancelRequest?
  {
    ObjectOf(CANCEL_KEYS, [JString(r.origClOrdId), JString(r.clOrdId), JString(r.instrument.exchange),
                           JString(r.instrument.symbol)])
  }

  lemma CancelKeysDistinct()
    ensures forall i, j :: 0 <= j < i < |CANCEL_KEYS| ==> CANCEL_KEYS[j] != CANCEL_KEYS[i]
  {
  }

  lemma CancelFields(r: Request)
    requires r.OrderCancelRequest?
    ensures var p := CancelParams(r);
      GetString(p, "orig_cl_ord_id") == Some(r.origClOrdId) && GetString(p, "cl_ord_id") == Some(r.clOrdId) &&
      GetString(p, "exchange") == Some(r.instrument.exchange) && GetString(p, "symbol") == Some(r.instrument.symbol)
  {
    var values := [JString(r.origClOrdId), JString(r.clOrdId), JString(r.instrument.exchange),
                   JString(r.instrument.symbol)];
    CancelKeysDistinct();
    FindKeyAt(CANCEL_KEYS, values, 0);
    FindKeyAt(CANCEL_KEYS, values, 1);
    FindKeyAt(CANCEL_KEYS, values, 2);
    FindKeyAt(CANCEL_KEYS, values, 3);
  }

  /** A cancel request without parties is read back from its parameters. */
  lemma CancelRoundTrip(r: Request)
    requires r.OrderCancelRequest? && r.parties == []
    ensures OrderRequest(ORDER_CANCEL_REQUEST, CancelParams(r)) == Some(r)
  {
    CancelFields(r);
  }

  /** A number given as text, as a client writes it. */
  function NumberParam(n: Number): Json
  {
    match n
    case NoNumber => JNull
    case NumberText(text) => JString(text)
    case NumberValue(literal) => JFloat(literal)
  }

  const NEW_ORDER_KEYS: seq<string> :=
    ["cl_ord_id", "exchange", "symbol", "side", "quantity", "ord_type", "price", "stop_px", "time_in_force"]

  function NewOrderValues(r: Request): (values: seq<Json>)
    requires r.NewOrderSingle?
    ensures |values| == |NEW_ORDER_KEYS|
  {
    [JString(r.clOrdId), JString(r.instrument.exchange), JString(r.instrument.symbol), JString(SideName(r.side)),
     NumberParam(r.quantity), JString(OrdTypeName(r.ordType)), NumberParam(r.price), NumberParam(r.stopPx),
     JString(TimeInForceName(r.timeInForce))]
  }

  /** The parameters a conforming client sends for a new order whose side,
    * order type and time in force are given and whose numbers are texts. */
  function NewOrderParams(r: Request): Json
    requires r.NewOrderSingle?
  {
    ObjectOf(NEW_ORDER_KEYS, NewOrderValues(r))
  }

  lemma NewOrderKeysDistinct()
    ensures forall i, j :: 0 <= j < i < |NEW_ORDER_KEYS| ==> NEW_ORDER_KEYS[j] != NEW_ORDER_KEYS[i]
  {
  }

  lemma NewOrderTextFields(r: Request)
    requires r.NewOrderSingle?
    ensures var p := NewOrderParams(r);
      GetString(p, "cl_ord_id") == Some(r.clOrdId) && GetString(p, "exchange") == Some(r.instrument.exchange) &&
      GetString(p, "symbol") == Some(r.instrument.symbol)
  {
    var values := NewOrderValues(r);
    NewOrderKeysDistinct();
    FindKeyAt(NEW_ORDER_KEYS, values, 0);
    FindKeyAt(NEW_ORDER_KEYS, values, 1);
    FindKeyAt(NEW_ORDER_KEYS, values, 2);
  }

  lemma NewOrderSideAndQuantity(r: Request)
    requires r.NewOrderSingle? && r.quantity.NumberText?
    ensures var p := NewOrderParams(r);
      GetEnum(p, "side", MapSide, NoSide) == MapSide(SideName(r.side)) && GetNumber(p, "quantity") == Some(r.quantity)
  {
    var values := NewOrderValues(r);
    NewOrderKeysDistinct();
    FindKeyAt(NEW_ORDER_KEYS, values, 3);
    FindKeyAt(NEW_ORDER_KEYS, values, 4);
  }

  lemma NewOrderTrailingFields(r: Request)
    requires r.NewOrderSingle? && r.price.NumberText? && r.stopPx.NumberText?
    ensures var p := NewOrderParams(r);
      GetEnum(p, "ord_type", MapOrdType, NoOrdType) == MapOrdType(OrdTypeName(r.ordType)) &&
      GetNumber(p, "price") == Some(r.price) && GetNumber(p, "stop_px") == Some(r.stopPx) &&
      GetEnum(p, "time_in_force", MapTimeInForce, NoTimeInForce) == MapTimeInForce(TimeInForceName(r.timeInForce))
  {
    var values := NewOrderValues(r);
    NewOrderKeysDistinct();
    FindKeyAt(NEW_ORDER_KEYS, values, 5);
    FindKeyAt(NEW_ORDER_KEYS, values, 6);
    FindKeyAt(NEW_ORDER_KEYS, values, 7);
    FindKeyAt(NEW_ORDER_KEYS, values, 8);
  }

  /** A new order without parties is read back from its parameters. */
  lemma NewOrderRoundTrip(r: Request)
    requires r.NewOrderSingle? && r.parties == []
    requires r.side != NoSide && r.ordType != NoOrdType && r.timeInForce != NoTimeInForce
    requires r.quantity.NumberText? && r.price.NumberText? && r.stopPx.NumberText?
    ensures OrderRequest(NEW_ORDER_SINGLE, NewOrderParams(r)) == Some(r)
  {
    NewOrderTextFields(r);
    NewOrderSideAndQuantity(r);
    NewOrderTrailingFields(r);
    EnumNamesRoundTrip(r.ordType, r.side, r.timeInForce, "");
  }

  /** A message that is not JSON, or not a JSON-RPC 2.0 request, closes a
    * live session and changes nothing else. */
  lemma BadEnvelopeCloses(m: Model, sessionId: nat, doc: Option<Json>, upstreamReady: bool)
    requires m.state != Zombie
    requires doc.None? || ParseEnvelope(doc.value).None?
    ensures var m' := AfterText(m, sessionId, doc, upstreamReady);
      m'.state == Zombie && !m'.open && m'.sent == m.sent && m'.upcalls == m.upcalls && m'.registry == m.registry
  {
  }

  /** Gating by logon state: what a request gets when it does not reach its
    * handler. */
  lemma Gating(m: Model, sessionId: nat, env: Envelope, upstreamReady: bool)
    requires m.state != Zombie
    ensures env.name == "logon" && m.state == Ready ==>
      AfterJsonRpc(m, sessionId, env, upstreamReady) == Some(AfterReply(m, ERROR, Error.ALREADY_LOGGED_ON, env.id))
    ensures env.name != "logon" && m.state != Ready ==>
      AfterJsonRpc(m, sessionId, env, upstreamReady) == Some(AfterReply(m, ERROR, Error.NOT_LOGGED_ON, env.id))
    ensures m.state == Ready && env.name !in {"logon", "logout"} && !IsOrderMethod(env.name) ==>
      AfterJsonRpc(m, sessionId, env, upstreamReady) == Some(AfterReply(m, ERROR, UNKNOWN_METHOD, env.id))
  {
  }

  /** `order_mass_cancel_request` has no handler: a READY session answers
    * UNKNOWN_METHOD. */
  lemma MassCancelUnknown(m: Model, sessionId: nat, params: Json, id: Json, upstreamReady: bool)
    requires m.state == Ready
    ensures AfterJsonRpc(m, sessionId, Envelope("order_mass_cancel_request", params, id), upstreamReady) ==
      Some(AfterReply(m, ERROR, UNKNOWN_METHOD, id))
  {
  }

  /** Logon: on success the session is READY under that username and bound
    * to it in the registry; on failure only the reply (the reason) is new. */
  lemma LogonOutcomes(m: Model, sessionId: nat, username: string, password: string, params: Json, id: Json)
    requires Inv(m, sessionId) && m.state == WaitingLogon
    requires GetString(params, "username") == Some(username) && GetString(params, "password") == Some(password)
    ensures var o := LogonOutcomeOf(m.registry, username, password);
      var m' := AfterLogon(m, sessionId, params, id).value;
      AfterLogon(m, sessionId, params, id).Some? &&
      (o.LoggedOn? ==>
         m'.state == Ready && m'.username == username &&
         m'.registry.sessionToUser == m.registry.sessionToUser[sessionId := username] &&
         m'.registry.userToSession == m.registry.userToSession[username := sessionId] &&
         m' == AfterReply(m'.(sent := m.sent), RESULT, SUCCESS, id)) &&
      (o.LogonFailed? ==> m' == AfterReply(m, ERROR, o.reason, id))
  {
    LogonBinds(m.registry, sessionId, username, password);
  }

  /** Logout of a READY session always succeeds: the session waits for a
    * logon again, with no username and no binding. */
  lemma LogoutSucceeds(m: Model, sessionId: nat, id: Json)
    requires Inv(m, sessionId) && m.state == Ready
    ensures var m' := AfterLogout(m, sessionId, id);
      m'.state == WaitingLogon && m'.username == "" && sessionId !in m'.registry.sessionToUser &&
      m.username !in m'.registry.userToSession &&
      m' == AfterReply(m'.(sent := m.sent), RESULT, SUCCESS, id)
  {
    UnbindKeepsBijection(m.registry, sessionId);
  }

  /** An order request of a READY session is handed to the controller under
    * the session's username, and answered "success" exactly when the
    * upstream session accepts it. */
  lemma OrdersDispatched(m: Model, sessionId: nat, env: Envelope, upstreamReady: bool)
    requires m.state == Ready && IsOrderMethod(env.name)
    requires OrderRequest(env.name, env.params).Some?
    ensures var m' := AfterJsonRpc(m, sessionId, env, upstreamReady).value;
      AfterJsonRpc(m, sessionId, env, upstreamReady).Some? &&
      m'.upcalls == m.upcalls + [Dispatch(OrderRequest(env.name, env.params).value, m.username)] &&
      m'.state == Ready && m'.registry == m.registry &&
      (EchoedId(env.id).Some? ==>
         m'.sent == m.sent +
           [Reply(ReplyText(if upstreamReady then RESULT else ERROR, if upstreamReady then SUCCESS else Error.NOT_READY,
                            EchoedId(env.id).value))])
  {
  }

  /** A parameter that throws closes the session without dispatching. */
  lemma BadParamsClose(m: Model, sessionId: nat, doc: Json, upstreamReady: bool)
    requires m.state == Ready
    requires ParseEnvelope(doc).Some? && IsOrderMethod(ParseEnvelope(doc).value.name)
    requires OrderRequest(ParseEnvelope(doc).value.name, ParseEnvelope(doc).value.params).None?
    ensures AfterText(m, sessionId, Some(doc), upstreamReady) == AfterClose(m)
  {
  }

  /** A zombie stays a zombie and ignores text, HTTP requests and the
    * events it would otherwise relay. */
  lemma ZombieIsFinal(m: Model, sessionId: nat, doc: Option<Json>, upstreamReady: bool, e: Event,
                      request: Rest.HttpRequest, prefix: string, symbols: seq<string>)
    requires m.state == Zombie && Deliverable(e)
    ensures AfterText(m, sessionId, doc, upstreamReady) == m
    ensures AfterHttpRequest(m, request, prefix, symbols) == m
    ensures AfterEvent(m, e).Some? ==> AfterEvent(m, e).value == m
    ensures AfterBinary(m).state == Zombie && AfterDisconnected(m, sessionId).state == Zombie
  {
  }

  /** Execution reports and business rejects reach a live client as
    * notifications, in order. */
  lemma EventsNotified(m: Model, e: Event)
    requires m.state != Zombie && (e.ExecutionReport? || e.BusinessMessageReject?)
    ensures AfterEvent(m, e) == Some(m.(sent := m.sent + [Notification(e)]))
  {
  }

  /** The REST route answers exactly GET of `symbols` (after the prefix),
    * with the symbol list. */
  lemma RouteServesOnlySymbols(request: Rest.HttpRequest, prefix: string, symbols: seq<string>)
    ensures Route(request, prefix, symbols).Responded? <==>
      !request.upgrade && request.verb == Rest.Get && Rest.StripPrefix(request.path, prefix) == [Rest.SYMBOLS]
    ensures Route(request, prefix, symbols).Responded? ==> Route(request, prefix, symbols) == Rest.SymbolsResponse(symbols)
    ensures Route(request, prefix, symbols).Upgraded? <==> request.upgrade
  {
    var path := Rest.StripPrefix(request.path, prefix);
    if |path| == 1 && path[0] == Rest.SYMBOLS {
      assert path == [Rest.SYMBOLS];
    }
  }
}

// The variant FIX client session of src/roq/proxy/fix/client/fix/session.cpp,
// as values. After a good Logon it asks the controller for the user
// (LOG_ON_USER) and answers the client only once the controller's
// UserResponse arrives (WAITING_USER_RESPONSE); it does not validate the
// client's ids, and every call into the controller carries the username.
// The functions `After...` say how each event moves a `Model`; the class
// `ClientFixSession.Session` is proved to move its `View()` the same way.
// Framing, the configuration, the outbound messages and the MsgSeqNum
// bookkeeping are those of the main client session (`ClientSessionModel`).

module ClientFixSessionModel {
  import opened Common
  import opened Fix
  import opened SessionRegistry
  import CS = ClientSessionModel

  const GOODBYE: string := "goodbye"
  const MISSING_HEARTBEAT: string := "MISSING HEARTBEAT"
  const NO_LOGON: string := "NO LOGON"
  const UNEXPECTED_LOGON: string := "UNEXPECTED LOGON"
  const UNEXPECTED_MSG_TYPE: string := "UNEXPECTED MSG_TYPE"
  const UNKNOWN_TARGET_COMP_ID: string := "UNKNOWN TARGET_COMP_ID"
  const UNSUPPORTED_MSG_TYPE: string := "UNSUPPORTED MSG_TYPE"
  const UNSUPPORTED_PARTY_IDS: string := "UNSUPPORTED PARTY_IDS"
  const CREATE_ROUTE_TIMEOUT: string := "CREATE_ROUTE_TIMEOUT"

  datatype State = WaitingLogon | WaitingUserResponse | Ready | Zombie

  /** Calls the session makes into the controller, each with the username
    * the session is logged on as. */
  datatype Upcall =
    | UserRequest(userRequestId: string, kind: UserRequestKind, partyId: string, username: string)
    | Forward(request: Request, username: string)
    | Disconnected(sessionId: nat, username: string)

  datatype Model = Model(
    state: State,
    compId: string,
    username: string,
    partyId: string,
    inbound: nat,
    outbound: nat,
    nextHeartbeat: nat,
    waitingForHeartbeat: bool,
    logonTimeout: nat,
    userResponseTimeout: nat,
    open: bool,
    pending: seq<byte>,
    sent: seq<CS.Outgoing>,
    upcalls: seq<Upcall>,
    registry: Registry)

  /** A session as accepted at time `now`. */
  function Accepted(cfg: CS.Config, registry: Registry, now: nat): Model
  {
    Model(WaitingLogon, "", "", "", 0, 0, 0, false, now + cfg.logonTimeout, 0, true, [], [], [], registry)
  }

  // ---------------------------------------------------------------------------
  // Sending and closing

  function AfterSend(m: Model, body: CS.ToClient): Model
  {
    m.(outbound := m.outbound + 1, sent := m.sent + [CS.Outgoing(m.outbound + 1, m.compId, body)])
  }

  /** Tell the controller about the lost user (unless the client never
    * logged on), become a zombie and queue the session for removal. */
  function AfterMakeZombie(m: Model, cfg: CS.Config): Model
  {
    match m.state
    case Zombie => m
    case WaitingLogon => m.(state := Zombie, registry := Remove(m.registry, cfg.sessionId))
    case _ =>
      m.(upcalls := m.upcalls + [Disconnected(cfg.sessionId, m.username)], state := Zombie,
         registry := Remove(m.registry, cfg.sessionId))
  }

  function AfterClose(m: Model, cfg: CS.Config): Model
  {
    if m.state != Zombie then AfterMakeZombie(m.(open := false), cfg) else m
  }

  function AfterSendAndClose(m: Model, cfg: CS.Config, body: CS.ToClient): Model
  {
    AfterClose(AfterSend(m, body), cfg)
  }

  /** A session-level Reject of the message with header `h`, then close. */
  function AfterSendReject(m: Model, cfg: CS.Config, h: Header, text: string): Model
  {
    AfterSendAndClose(m, cfg, CS.SessionReject(h.msgSeqNum, h.msgType, text))
  }

  /** A BusinessMessageReject of the message with header `h`; this session
    * never fills in BusinessRejectRefID. */
  function AfterBusinessReject(m: Model, h: Header, reason: BusinessRejectReason, text: string): Model
  {
    AfterSend(m, CS.BusinessReject(h.msgSeqNum, h.msgType, "", reason, text))
  }

  /** The reply to a message type the session does not serve. */
  function AfterUnexpected(m: Model, h: Header): Model
  {
    AfterBusinessReject(m, h, UnsupportedMessageType, UNEXPECTED_MSG_TYPE)
  }

  // ---------------------------------------------------------------------------
  // Events from the proxy

  function AfterTimer(m: Model, cfg: CS.Config, now: nat): Model
  {
    match m.state
    case WaitingLogon => if m.logonTimeout < now then AfterClose(m, cfg) else m
    case WaitingUserResponse =>
      if m.userResponseTimeout < now then AfterSendAndClose(m, cfg, CS.LogoutMsg(CREATE_ROUTE_TIMEOUT)) else m
    case Ready =>
      if m.nextHeartbeat < now then
        var m1 := m.(nextHeartbeat := now + cfg.heartbeatFreq);
        if m1.waitingForHeartbeat then AfterSendAndClose(m1, cfg, CS.LogoutMsg(MISSING_HEARTBEAT))
        else AfterSend(m1, CS.TestRequestMsg(CS.ProbeId(now))).(waitingForHeartbeat := true)
      else m
    case Zombie => m
  }

  /** The controller's answer to LOG_ON_USER. `None` is the fatal error that
    * ends the process: LOGGED_IN arriving in any state but
    * WAITING_USER_RESPONSE. */
  function AfterUserResponse(m: Model, cfg: CS.Config, status: UserStatus): Option<Model>
  {
    var m1 := m.(userResponseTimeout := 0);
    if status == LoggedIn then
      if m1.state == WaitingUserResponse then Some(AfterSend(m1, CS.LogonReply(CS.HeartBtInt(cfg))).(state := Ready))
      else None
    else Some(AfterMakeZombie(m1, cfg))
  }

  /** The upstream events this session has a handler for. */
  predicate Relayable(e: Event)
  {
    e.BusinessMessageReject? || e.SecurityList? || e.SecurityDefinition? || e.SecurityStatus? ||
    e.MarketDataRequestReject? || e.MarketDataSnapshotFullRefresh? || e.MarketDataIncrementalRefresh? ||
    e.OrderCancelReject? || e.ExecutionReport?
  }

  /** A response or report from upstream, relayed only to a READY client. */
  function AfterEvent(m: Model, e: Event): Model
    requires Relayable(e)
  {
    if m.state == Ready then AfterSend(m, CS.Relayed(e)) else m
  }

  function AfterForceDisconnect(m: Model, cfg: CS.Config): Model
  {
    if m.state == Zombie then m else AfterClose(m, cfg)
  }

  // ---------------------------------------------------------------------------
  // Messages from the client

  /** The session adopts the client's MsgSeqNum whatever it is. */
  function AfterCheck(m: Model, h: Header): Model
  {
    m.(inbound := h.msgSeqNum)
  }

  function AfterTestRequest(m: Model, cfg: CS.Config, h: Header, testReqId: string): Model
  {
    match m.state
    case WaitingLogon => AfterSendReject(m, cfg, h, NO_LOGON)
    case WaitingUserResponse => AfterSend(m, CS.HeartbeatMsg(testReqId))
    case Ready => AfterSend(m, CS.HeartbeatMsg(testReqId))
    case Zombie => m
  }

  function AfterResendRequest(m: Model, cfg: CS.Config, h: Header): Model
  {
    match m.state
    case WaitingLogon => AfterSendReject(m, cfg, h, NO_LOGON)
    case WaitingUserResponse => AfterSendReject(m, cfg, h, NO_LOGON)
    case Ready => AfterBusinessReject(m, h, UnsupportedMessageType, UNSUPPORTED_MSG_TYPE)
    case Zombie => m
  }

  function AfterHeartbeat(m: Model, cfg: CS.Config, h: Header): Model
  {
    match m.state
    case WaitingLogon => AfterSendReject(m, cfg, h, NO_LOGON)
    case WaitingUserResponse => AfterSendReject(m, cfg, h, NO_LOGON)
    case Ready => m.(waitingForHeartbeat := false)
    case Zombie => m
  }

  /** `fault` is the reason text when the controller throws while taking the
    * user request; the session is READY at that moment, so the close that
    * follows reports the user as disconnected. */
  function AfterLogon(m: Model, cfg: CS.Config, h: Header, username: string, password: string,
                      now: nat, fault: Option<string>): Model
  {
    match m.state
    case WaitingLogon =>
      var m1 := m.(compId := h.senderCompId);
      if h.targetCompId != cfg.compId then AfterSendReject(m1, cfg, h, UNKNOWN_TARGET_COMP_ID)
      else
        var m2 := m1.(registry := Logon(m1.registry, cfg.sessionId, username, password));
        var outcome := LogonOutcomeOf(m1.registry, username, password);
        if outcome.LogonFailed? then AfterSendReject(m2, cfg, h, outcome.reason)
        else
          var r := NextRequestId(m2.registry);
          var partyId := Decimal(outcome.strategyId);
          var m3 := m2.(state := Ready, username := username, partyId := partyId, registry := r,
                        upcalls := m2.upcalls + [UserRequest(RequestId(r.nextRequestId), LogOnUser, partyId, username)]);
          if fault.Some? then AfterSendReject(m3, cfg, h, fault.value)
          else m3.(state := WaitingUserResponse, userResponseTimeout := now + cfg.requestTimeout)
    case WaitingUserResponse => AfterSendReject(m, cfg, h, UNEXPECTED_LOGON)
    case Ready => AfterSendReject(m, cfg, h, UNEXPECTED_LOGON)
    case Zombie => m
  }

  /** A READY client logs out: the controller hears LOG_OFF_USER, then the
    * registry unbinds the session and the client is told goodbye. */
  function AfterLogOffUser(m: Model, cfg: CS.Config, h: Header): Model
  {
    var r := NextRequestId(m.registry);
    var m1 := m.(registry := r,
                 upcalls := m.upcalls + [UserRequest(RequestId(r.nextRequestId), LogOffUser, m.partyId, m.username)]);
    var m2 := m1.(registry := Logout(m1.registry, cfg.sessionId));
    match LogoutOutcomeOf(m1.registry, cfg.sessionId)
    case LoggedOut => AfterSendAndClose(m2.(username := ""), cfg, CS.LogoutMsg(GOODBYE))
    case LogoutFailed(reason) => AfterSendReject(m2, cfg, h, reason)
  }

  function AfterLogout(m: Model, cfg: CS.Config, h: Header): Model
  {
    match m.state
    case WaitingLogon => AfterSendReject(m, cfg, h, NO_LOGON)
    case WaitingUserResponse => AfterSendReject(m, cfg, h, NO_LOGON)
    case Ready => AfterLogOffUser(m, cfg, h)
    case Zombie => m
  }

  /** The requests this session never serves, whatever its state. */
  predicate Unsupported(r: Request)
  {
    r.OrderMassCancelRequest? || r.TradeCaptureReportRequest? || r.RequestForPositions?
  }

  /** The order requests on which the session stamps its own party. */
  predicate Stamped(r: Request)
  {
    r.NewOrderSingle? || r.OrderCancelRequest? || r.OrderCancelReplaceRequest?
  }

  /** The handler of each business request. */
  function AfterRequest(m: Model, cfg: CS.Config, h: Header, r: Request): Model
  {
    if Unsupported(r) then AfterUnexpected(m, h)
    else
      match m.state
      case WaitingLogon => AfterSendReject(m, cfg, h, NO_LOGON)
      case WaitingUserResponse => AfterSendReject(m, cfg, h, NO_LOGON)
      case Ready =>
        if Stamped(r) then
          var stamped := CS.AddPartyIds(r, m.partyId);
          if stamped.Some? then m.(upcalls := m.upcalls + [Forward(stamped.value, m.username)])
          else AfterBusinessReject(m, h, OtherBusinessReason, UNSUPPORTED_PARTY_IDS)
        else m.(upcalls := m.upcalls + [Forward(r, m.username)])
      case Zombie => m
  }

  function AfterAdministrative(m: Model, cfg: CS.Config, msg: Message, now: nat, fault: Option<string>): Model
    requires CS.IsAdministrative(msg.body)
  {
    var h := msg.header;
    match msg.body
    case TestRequestBody(id) => AfterTestRequest(m, cfg, h, id)
    case ResendRequestBody => AfterResendRequest(m, cfg, h)
    case RejectBody(_) => AfterClose(m, cfg)
    case HeartbeatBody(_) => AfterHeartbeat(m, cfg, h)
    case LogonBody(u, p) => AfterLogon(m, cfg, h, u, p, now, fault)
    case LogoutBody(_) => AfterLogout(m, cfg, h)
  }

  /** TradeCaptureReportRequest has no case label of its own in the
    * dispatch, so it takes the default branch like any unknown type. */
  function AfterApplication(m: Model, cfg: CS.Config, msg: Message): Model
    requires !CS.IsAdministrative(msg.body)
  {
    var h := msg.header;
    match msg.body
    case TradingSessionStatusRequestBody(_) => AfterUnexpected(m, h)
    case RequestBody(r) => if r.TradeCaptureReportRequest? then AfterUnexpected(m, h) else AfterRequest(m, cfg, h, r)
    case EventBody(_) => AfterUnexpected(m, h)
    case UnknownBody(_) => AfterUnexpected(m, h)
  }

  /** Dispatch one decoded message on its type. */
  function AfterParse(m: Model, cfg: CS.Config, msg: Message, now: nat, fault: Option<string>): Model
  {
    if CS.IsAdministrative(msg.body) then AfterAdministrative(m, cfg, msg, now, fault)
    else AfterApplication(m, cfg, msg)
  }

  datatype Drained = Drained(model: Model, consumed: nat, failed: bool)

  /** Frame and handle messages from the front of `buf` until the buffer is
    * used up, a message is incomplete, decoding throws, or the session has
    * become a zombie. */
  function Drain(m: Model, cfg: CS.Config, buf: seq<byte>, now: nat, fault: Option<string>): (d: Drained)
    requires CS.ReaderContract(cfg.reader)
    ensures d.consumed <= |buf|
    decreases |buf|
  {
    if |buf| == 0 || m.state == Zombie then Drained(m, 0, false)
    else
      match cfg.reader(buf)
      case Incomplete => Drained(m, 0, false)
      case Malformed => Drained(m, 0, true)
      case Undecodable(h) => Drained(AfterCheck(m, h), 0, true)
      case Decoded(n, msg) =>
        var d := Drain(AfterParse(AfterCheck(m, msg.header), cfg, msg, now, fault), cfg, buf[n..], now, fault);
        Drained(d.model, n + d.consumed, d.failed)
  }

  /** Bytes arrive: append them to the buffer, handle every whole message and
    * keep the unused tail; a decoding error closes the session. */
  function AfterRead(m: Model, cfg: CS.Config, incoming: seq<byte>, now: nat, fault: Option<string>): Model
    requires CS.ReaderContract(cfg.reader)
  {
    if m.state == Zombie then m
    else
      var buf := m.pending + incoming;
      var d := Drain(m.(pending := buf), cfg, buf, now, fault);
      if d.failed then AfterClose(d.model, cfg) else d.model.(pending := buf[d.consumed..])
  }

  /** Everything that can happen to a session from outside. */
  datatype Input =
    | TimerTick(now: nat)
    | UserResponseIn(status: UserStatus)
    | EventIn(event: Event)
    | ForceDisconnect
    | BytesIn(incoming: seq<byte>, now: nat, fault: Option<string>)
    | PeerDisconnected

  /** One input; `None` when it ends the process. */
  function Step(m: Model, cfg: CS.Config, input: Input): Option<Model>
    requires CS.ReaderContract(cfg.reader)
    requires input.EventIn? ==> Relayable(input.event)
  {
    match input
    case TimerTick(now) => Some(AfterTimer(m, cfg, now))
    case UserResponseIn(status) => AfterUserResponse(m, cfg, status)
    case EventIn(e) => Some(AfterEvent(m, e))
    case ForceDisconnect => Some(AfterForceDisconnect(m, cfg))
    case BytesIn(incoming, now, fault) => Some(AfterRead(m, cfg, incoming, now, fault))
    case PeerDisconnected => Some(AfterMakeZombie(m, cfg))
  }

  // ---------------------------------------------------------------------------
  // Invariant

  /** The registry binds this session to its username exactly while the
    * client is logged on (WAITING_USER_RESPONSE, READY); a session that is
    * not a zombie still has its connection; a zombie is queued for removal;
    * outbound MsgSeqNums are 1, 2, 3, ... */
  ghost predicate Inv(m: Model, cfg: CS.Config)
  {
    Bijective(m.registry) &&
    CS.Numbered(m.sent, m.outbound) &&
    (m.state != Zombie ==> m.open) &&
    (m.state == WaitingLogon ==> cfg.sessionId !in m.registry.sessionToUser) &&
    (m.state in {WaitingUserResponse, Ready} ==>
       cfg.sessionId in m.registry.sessionToUser && m.registry.sessionToUser[cfg.sessionId] == m.username) &&
    (m.state == Zombie ==> cfg.sessionId !in m.registry.sessionToUser && cfg.sessionId in m.registry.toRemove)
  }

  /** The part of `Inv` that holds even in the middle of a handler. */
  ghost predicate Weak(m: Model, cfg: CS.Config)
  {
    Bijective(m.registry) && CS.Numbered(m.sent, m.outbound) &&
    (m.state == Zombie ==> cfg.sessionId !in m.registry.sessionToUser && cfg.sessionId in m.registry.toRemove)
  }

  // ---------------------------------------------------------------------------
  // Keeping the invariant

  lemma SendKeepsNumbering(m: Model, body: CS.ToClient)
    requires CS.Numbered(m.sent, m.outbound)
    ensures CS.Numbered(AfterSend(m, body).sent, AfterSend(m, body).outbound)
  {
  }

  /** Whatever state it is in, a session that turns zombie ends unbound and
    * queued for removal. */
  lemma ZombieQueued(m: Model, cfg: CS.Config)
    requires Weak(m, cfg)
    ensures Inv(AfterMakeZombie(m, cfg), cfg) && Inv(AfterClose(m, cfg), cfg)
    ensures AfterMakeZombie(m, cfg).state == Zombie && AfterClose(m, cfg).state == Zombie
  {
    if m.state != Zombie {
      RemoveQueuesAndIsIdempotent(m.registry, cfg.sessionId);
      RemoveQueuesAndIsIdempotent(m.(open := false).registry, cfg.sessionId);
    }
  }

  lemma SendAndCloseQueued(m: Model, cfg: CS.Config, body: CS.ToClient)
    requires Weak(m, cfg)
    ensures Inv(AfterSendAndClose(m, cfg, body), cfg)
  {
    SendKeepsNumbering(m, body);
    ZombieQueued(AfterSend(m, body), cfg);
  }

  lemma SendRejectQueued(m: Model, cfg: CS.Config, h: Header, text: string)
    requires Weak(m, cfg)
    ensures Inv(AfterSendReject(m, cfg, h, text), cfg)
  {
    SendAndCloseQueued(m, cfg, CS.SessionReject(h.msgSeqNum, h.msgType, text));
  }

  lemma BusinessRejectKeepsInv(m: Model, cfg: CS.Config, h: Header, reason: BusinessRejectReason, text: string)
    requires Inv(m, cfg)
    ensures Inv(AfterBusinessReject(m, h, reason, text), cfg)
  {
    SendKeepsNumbering(m, CS.BusinessReject(h.msgSeqNum, h.msgType, "", reason, text));
  }

  lemma TimerKeepsInv(m: Model, cfg: CS.Config, now: nat)
    requires Inv(m, cfg)
    ensures Inv(AfterTimer(m, cfg, now), cfg)
  {
    ZombieQueued(m, cfg);
    SendAndCloseQueued(m, cfg, CS.LogoutMsg(CREATE_ROUTE_TIMEOUT));
    var m1 := m.(nextHeartbeat := now + cfg.heartbeatFreq);
    SendAndCloseQueued(m1, cfg, CS.LogoutMsg(MISSING_HEARTBEAT));
    SendKeepsNumbering(m1, CS.TestRequestMsg(CS.ProbeId(now)));
  }

  lemma UserResponseKeepsInv(m: Model, cfg: CS.Config, status: UserStatus)
    requires Inv(m, cfg)
    ensures AfterUserResponse(m, cfg, status).Some? ==> Inv(AfterUserResponse(m, cfg, status).value, cfg)
  {
    var m1 := m.(userResponseTimeout := 0);
    ZombieQueued(m1, cfg);
    SendKeepsNumbering(m1, CS.LogonReply(CS.HeartBtInt(cfg)));
  }

  lemma EventKeepsInv(m: Model, cfg: CS.Config, e: Event)
    requires Inv(m, cfg) && Relayable(e)
    ensures Inv(AfterEvent(m, e), cfg)
  {
    SendKeepsNumbering(m, CS.Relayed(e));
  }

  lemma TestRequestKeepsInv(m: Model, cfg: CS.Config, h: Header, id: string)
    requires Inv(m, cfg)
    ensures Inv(AfterTestRequest(m, cfg, h, id), cfg)
  {
    SendRejectQueued(m, cfg, h, NO_LOGON);
    SendKeepsNumbering(m, CS.HeartbeatMsg(id));
  }

  lemma ResendRequestKeepsInv(m: Model, cfg: CS.Config, h: Header)
    requires Inv(m, cfg)
    ensures Inv(AfterResendRequest(m, cfg, h), cfg)
  {
    SendRejectQueued(m, cfg, h, NO_LOGON);
    BusinessRejectKeepsInv(m, cfg, h, UnsupportedMessageType, UNSUPPORTED_MSG_TYPE);
  }

  lemma HeartbeatKeepsInv(m: Model, cfg: CS.Config, h: Header)
    requires Inv(m, cfg)
    ensures Inv(AfterHeartbeat(m, cfg, h), cfg)
  {
    SendRejectQueued(m, cfg, h, NO_LOGON);
  }

  lemma LogonKeepsInv(m: Model, cfg: CS.Config, h: Header, username: string, password: string,
                      now: nat, fault: Option<string>)
    requires Inv(m, cfg)
    ensures Inv(AfterLogon(m, cfg, h, username, password, now, fault), cfg)
  {
    SendRejectQueued(m, cfg, h, UNEXPECTED_LOGON);
    if m.state == WaitingLogon {
      var m1 := m.(compId := h.senderCompId);
      SendRejectQueued(m1, cfg, h, UNKNOWN_TARGET_COMP_ID);
      LogonBinds(m1.registry, cfg.sessionId, username, password);
      var m2 := m1.(registry := Logon(m1.registry, cfg.sessionId, username, password));
      var outcome := LogonOutcomeOf(m1.registry, username, password);
      if outcome.LogonFailed? {
        SendRejectQueued(m2, cfg, h, outcome.reason);
      } else {
        var r := NextRequestId(m2.registry);
        var partyId := Decimal(outcome.strategyId);
        var m3 := m2.(state := Ready, username := username, partyId := partyId, registry := r,
                      upcalls := m2.upcalls + [UserRequest(RequestId(r.nextRequestId), LogOnUser, partyId, username)]);
        if fault.Some? {
          SendRejectQueued(m3, cfg, h, fault.value);
        }
      }
    }
  }

  lemma LogOffUserKeepsInv(m: Model, cfg: CS.Config, h: Header)
    requires Inv(m, cfg) && m.state == Ready
    ensures Inv(AfterLogOffUser(m, cfg, h), cfg)
  {
    var r := NextRequestId(m.registry);
    var m1 := m.(registry := r,
                 upcalls := m.upcalls + [UserRequest(RequestId(r.nextRequestId), LogOffUser, m.partyId, m.username)]);
    UnbindKeepsBijection(m1.registry, cfg.sessionId);
    var m2 := m1.(registry := Logout(m1.registry, cfg.sessionId));
    SendAndCloseQueued(m2.(username := ""), cfg, CS.LogoutMsg(GOODBYE));
    match LogoutOutcomeOf(m1.registry, cfg.sessionId)
    case LoggedOut =>
    case LogoutFailed(reason) => SendRejectQueued(m2, cfg, h, reason);
  }

  lemma LogoutKeepsInv(m: Model, cfg: CS.Config, h: Header)
    requires Inv(m, cfg)
    ensures Inv(AfterLogout(m, cfg, h), cfg)
  {
    SendRejectQueued(m, cfg, h, NO_LOGON);
    if m.state == Ready {
      LogOffUserKeepsInv(m, cfg, h);
    }
  }

  lemma RequestKeepsInv(m: Model, cfg: CS.Config, h: Header, r: Request)
    requires Inv(m, cfg)
    ensures Inv(AfterRequest(m, cfg, h, r), cfg)
  {
    BusinessRejectKeepsInv(m, cfg, h, UnsupportedMessageType, UNEXPECTED_MSG_TYPE);
    BusinessRejectKeepsInv(m, cfg, h, OtherBusinessReason, UNSUPPORTED_PARTY_IDS);
    SendRejectQueued(m, cfg, h, NO_LOGON);
  }

  lemma ParseKeepsInv(m: Model, cfg: CS.Config, msg: Message, now: nat, fault: Option<string>)
    requires Inv(m, cfg)
    ensures Inv(AfterParse(m, cfg, msg, now, fault), cfg)
  {
    var h := msg.header;
    match msg.body
    case TestRequestBody(id) => TestRequestKeepsInv(m, cfg, h, id);
    case ResendRequestBody => ResendRequestKeepsInv(m, cfg, h);
    case RejectBody(_) => ZombieQueued(m, cfg);
    case HeartbeatBody(_) => HeartbeatKeepsInv(m, cfg, h);
    case LogonBody(u, p) => LogonKeepsInv(m, cfg, h, u, p, now, fault);
    case LogoutBody(_) => LogoutKeepsInv(m, cfg, h);
    case TradingSessionStatusRequestBody(_) =>
      BusinessRejectKeepsInv(m, cfg, h, UnsupportedMessageType, UNEXPECTED_MSG_TYPE);
    case RequestBody(r) =>
      RequestKeepsInv(m, cfg, h, r);
      BusinessRejectKeepsInv(m, cfg, h, UnsupportedMessageType, UNEXPECTED_MSG_TYPE);
    case EventBody(_) => BusinessRejectKeepsInv(m, cfg, h, UnsupportedMessageType, UNEXPECTED_MSG_TYPE);
    case UnknownBody(_) => BusinessRejectKeepsInv(m, cfg, h, UnsupportedMessageType, UNEXPECTED_MSG_TYPE);
  }

  // ---------------------------------------------------------------------------
  // The read loop

  /** The outcome of the read loop when it has used `total` bytes of `buf`
    * and the session is now `m`. */
  function Resume(m: Model, cfg: CS.Config, buf: seq<byte>, total: nat, now: nat, fault: Option<string>): Drained
    requires CS.ReaderContract(cfg.reader) && total <= |buf|
  {
    var d := Drain(m, cfg, buf[total..], now, fault);
    Drained(d.model, total + d.consumed, d.failed)
  }

  /** Going from `m` at `total` to `m'` at `next` does not change where the
    * read loop ends. */
  ghost predicate Advances(m: Model, m': Model, cfg: CS.Config, buf: seq<byte>, total: nat, next: nat,
                           now: nat, fault: Option<string>)
    requires CS.ReaderContract(cfg.reader)
  {
    total < next <= |buf| && Resume(m, cfg, buf, total, now, fault) == Resume(m', cfg, buf, next, now, fault)
  }

  /** A whole message at `total`: handling it moves the loop past it. */
  lemma ResumeDecoded(m: Model, cfg: CS.Config, buf: seq<byte>, total: nat, n: nat, msg: Message,
                      now: nat, fault: Option<string>)
    requires CS.ReaderContract(cfg.reader)
    requires total < |buf| && m.state != Zombie && cfg.reader(buf[total..]) == CS.Decoded(n, msg)
    ensures total < total + n <= |buf|
    ensures Resume(m, cfg, buf, total, now, fault) ==
            Resume(AfterParse(AfterCheck(m, msg.header), cfg, msg, now, fault), cfg, buf, total + n, now, fault)
  {
    assert buf[total..][n..] == buf[total + n..];
  }

  /** The read loop stops at a frame that is not a whole message. */
  lemma ResumeStops(m: Model, cfg: CS.Config, buf: seq<byte>, total: nat, now: nat, fault: Option<string>)
    requires CS.ReaderContract(cfg.reader)
    requires total < |buf| && m.state != Zombie && !cfg.reader(buf[total..]).Decoded?
    ensures var f := cfg.reader(buf[total..]);
      Resume(m, cfg, buf, total, now, fault) ==
      Drained(if f.Undecodable? then AfterCheck(m, f.header) else m, total, !f.Incomplete?)
  {
  }

  /** ... and when the buffer is used up or the session has become a zombie. */
  lemma ResumeEnds(m: Model, cfg: CS.Config, buf: seq<byte>, total: nat, now: nat, fault: Option<string>)
    requires CS.ReaderContract(cfg.reader)
    requires total <= |buf| && (total == |buf| || m.state == Zombie)
    ensures Resume(m, cfg, buf, total, now, fault) == Drained(m, total, false)
  {
  }

  /** Whatever property every handled message and every undecodable header
    * keeps, the read loop keeps too. */
  lemma {:induction false} DrainKeeps(P: Model -> bool, m: Model, cfg: CS.Config, buf: seq<byte>, now: nat,
                                      fault: Option<string>)
    requires CS.ReaderContract(cfg.reader)
    requires forall m': Model, msg: Message :: P(m') ==> P(AfterParse(AfterCheck(m', msg.header), cfg, msg, now, fault))
    requires forall m': Model, h: Header :: P(m') ==> P(AfterCheck(m', h))
    requires P(m)
    ensures P(Drain(m, cfg, buf, now, fault).model)
    decreases |buf|
  {
    if |buf| > 0 && m.state != Zombie && cfg.reader(buf).Decoded? {
      var n, msg := cfg.reader(buf).consumed, cfg.reader(buf).message;
      DrainKeeps(P, AfterParse(AfterCheck(m, msg.header), cfg, msg, now, fault), cfg, buf[n..], now, fault);
    }
  }

  lemma DrainKeepsInv(m: Model, cfg: CS.Config, buf: seq<byte>, now: nat, fault: Option<string>)
    requires CS.ReaderContract(cfg.reader)
    requires Inv(m, cfg)
    ensures Inv(Drain(m, cfg, buf, now, fault).model, cfg)
  {
    var P := (x: Model) => Inv(x, cfg);
    forall m': Model, msg: Message | P(m')
      ensures P(AfterParse(AfterCheck(m', msg.header), cfg, msg, now, fault))
    {
      ParseKeepsInv(AfterCheck(m', msg.header), cfg, msg, now, fault);
    }
    DrainKeeps(P, m, cfg, buf, now, fault);
  }

  /** Every input that does not end the process keeps the invariant. */
  lemma StepKeepsInv(m: Model, cfg: CS.Config, input: Input)
    requires CS.ReaderContract(cfg.reader)
    requires input.EventIn? ==> Relayable(input.event)
    requires Inv(m, cfg)
    ensures Step(m, cfg, input).Some? ==> Inv(Step(m, cfg, input).value, cfg)
  {
    match input
    case TimerTick(now) => TimerKeepsInv(m, cfg, now);
    case UserResponseIn(status) => UserResponseKeepsInv(m, cfg, status);
    case EventIn(e) => EventKeepsInv(m, cfg, e);
    case ForceDisconnect => ZombieQueued(m, cfg);
    case BytesIn(incoming, now, fault) =>
      if m.state != Zombie {
        var buf := m.pending + incoming;
        DrainKeepsInv(m.(pending := buf), cfg, buf, now, fault);
        ZombieQueued(Drain(m.(pending := buf), cfg, buf, now, fault).model, cfg);
      }
    case PeerDisconnected => ZombieQueued(m, cfg);
  }

  /** A fresh session satisfies the invariant as long as the registry does
    * not know its id yet. */
  lemma AcceptedInv(cfg: CS.Config, registry: Registry, now: nat)
    requires Bijective(registry) && cfg.sessionId !in registry.sessionToUser
    ensures Inv(Accepted(cfg, registry, now), cfg)
  {
  }

  // ---------------------------------------------------------------------------
  // Properties

  /** ZOMBIE is final: nothing moves a zombie, sends anything, calls the
    * controller or touches the registry; only a LOGGED_IN answer is fatal. */
  lemma ZombieIsFinal(m: Model, cfg: CS.Config, input: Input)
    requires CS.ReaderContract(cfg.reader)
    requires input.EventIn? ==> Relayable(input.event)
    requires m.state == Zombie
    ensures Step(m, cfg, input).None? <==> input == UserResponseIn(LoggedIn)
    ensures var m' := Step(m, cfg, input);
      m'.Some? ==> m'.value.state == Zombie && m'.value.sent == m.sent && m'.value.upcalls == m.upcalls &&
                   m'.value.registry == m.registry
  {
  }

  /** The logon round trip: a Logon with the right TargetCompID and good
    * credentials binds the session, sends the controller LOG_ON_USER (with
    * the configured strategy id as party) and waits, sending the client
    * nothing; a LOGGED_IN answer then sends the client its Logon and the
    * session is READY. */
  lemma LogonAwaitsUserResponse(m: Model, cfg: CS.Config, h: Header, username: string, password: string,
                                now: nat)
    requires Inv(m, cfg) && m.state == WaitingLogon && h.targetCompId == cfg.compId
    requires LogonOutcomeOf(m.registry, username, password).LoggedOn?
    ensures var m1 := AfterLogon(m, cfg, h, username, password, now, None);
      var partyId := Decimal(LogonOutcomeOf(m.registry, username, password).strategyId);
      m1.state == WaitingUserResponse && m1.open && m1.sent == m.sent && m1.compId == h.senderCompId &&
      m1.userResponseTimeout == now + cfg.requestTimeout &&
      m1.registry.sessionToUser[cfg.sessionId] == username && m1.registry.userToSession[username] == cfg.sessionId &&
      |m1.upcalls| == |m.upcalls| + 1 && m1.upcalls[..|m.upcalls|] == m.upcalls &&
      m1.upcalls[|m.upcalls|] == UserRequest(RequestId(m1.registry.nextRequestId), LogOnUser, partyId, username) &&
      var m2 := AfterUserResponse(m1, cfg, LoggedIn);
      m2.Some? && m2.value.state == Ready && m2.value.upcalls == m1.upcalls &&
      m2.value.sent == m.sent + [CS.Outgoing(m.outbound + 1, h.senderCompId, CS.LogonReply(CS.HeartBtInt(cfg)))]
  {
    LogonBinds(m.registry, cfg.sessionId, username, password);
  }

  /** Any answer but LOGGED_IN makes the session a zombie; LOGGED_IN is
    * accepted only while waiting for it and is fatal in any other state. */
  lemma UserResponseOutcomes(m: Model, cfg: CS.Config, status: UserStatus)
    requires Inv(m, cfg)
    ensures var r := AfterUserResponse(m, cfg, status);
      (status != LoggedIn ==> r.Some? && r.value.state == Zombie && cfg.sessionId in r.value.registry.toRemove) &&
      (status == LoggedIn ==> (r.Some? <==> m.state == WaitingUserResponse)) &&
      (r.Some? && r.value.state != Zombie ==> r.value.state == Ready && status == LoggedIn)
  {
    ZombieQueued(m.(userResponseTimeout := 0), cfg);
  }

  /** Logout from READY: the controller hears LOG_OFF_USER, the registry
    * unbinds the session (the username is free again), the client gets
    * Logout "goodbye" and the connection closes, reported to the controller
    * with the cleared username. The registry can refuse only a session it
    * does not bind, which the invariant rules out. */
  lemma ReadyLogout(m: Model, cfg: CS.Config, h: Header)
    requires Inv(m, cfg) && m.state == Ready
    ensures var m' := AfterLogout(m, cfg, h);
      var id := RequestId(NextRequestId(m.registry).nextRequestId);
      m'.state == Zombie && !m'.open && m'.username == "" &&
      cfg.sessionId !in m'.registry.sessionToUser && m.username !in m'.registry.userToSession &&
      m'.upcalls == m.upcalls + [UserRequest(id, LogOffUser, m.partyId, m.username), Disconnected(cfg.sessionId, "")] &&
      m'.sent == m.sent + [CS.Outgoing(m.outbound + 1, m.compId, CS.LogoutMsg(GOODBYE))]
  {
    var r := NextRequestId(m.registry);
    LogoutRefusedIffUnbound(r, cfg.sessionId);
    UnbindKeepsBijection(r, cfg.sessionId);
  }

  /** ResendRequest is not served: READY answers with a
    * BusinessMessageReject and stays open, earlier states send a Reject and
    * close. */
  lemma ResendRequestOutcome(m: Model, cfg: CS.Config, h: Header)
    requires Inv(m, cfg) && m.state != Zombie
    ensures var m' := AfterResendRequest(m, cfg, h);
      |m'.sent| == |m.sent| + 1 && m'.sent[..|m.sent|] == m.sent &&
      (m.state == Ready ==>
         m'.state == Ready && m'.open && m'.upcalls == m.upcalls &&
         m'.sent[|m.sent|].body == CS.BusinessReject(h.msgSeqNum, h.msgType, "", UnsupportedMessageType, UNSUPPORTED_MSG_TYPE)) &&
      (m.state != Ready ==>
         m'.state == Zombie && !m'.open &&
         m'.sent[|m.sent|].body == CS.SessionReject(h.msgSeqNum, h.msgType, NO_LOGON))
  {
  }

  /** OrderMassCancelRequest, TradeCaptureReportRequest and
    * RequestForPositions always draw the same BusinessMessageReject, in any
    * state, and change nothing else. */
  lemma UnsupportedAlwaysRejected(m: Model, cfg: CS.Config, h: Header, r: Request, now: nat, fault: Option<string>)
    requires Unsupported(r)
    ensures var m' := AfterParse(m, cfg, Message(h, RequestBody(r)), now, fault);
      m'.state == m.state && m'.open == m.open && m'.upcalls == m.upcalls && m'.registry == m.registry &&
      m'.sent == m.sent + [CS.Outgoing(m.outbound + 1, m.compId,
                                        CS.BusinessReject(h.msgSeqNum, h.msgType, "", UnsupportedMessageType, UNEXPECTED_MSG_TYPE))]
  {
  }

  /** TradeCaptureReportRequest reaches the default branch of the dispatch,
    * which answers exactly as an unknown message type; its own handler would
    * have answered the same. */
  lemma TradeCaptureReportRequestFallsToDefault(m: Model, cfg: CS.Config, h: Header, r: Request, code: string,
                                               now: nat, fault: Option<string>)
    requires r.TradeCaptureReportRequest?
    ensures AfterParse(m, cfg, Message(h, RequestBody(r)), now, fault) ==
            AfterParse(m, cfg, Message(h, UnknownBody(code)), now, fault)
    ensures AfterParse(m, cfg, Message(h, RequestBody(r)), now, fault) == AfterRequest(m, cfg, h, r)
  {
  }

  /** `send_reject` sends the Reject, numbered one past the last message,
    * and then closes the session. */
  lemma SendRejectSendsThenCloses(m: Model, cfg: CS.Config, h: Header, text: string)
    requires Weak(m, cfg) && m.state != Zombie
    ensures var m' := AfterSendReject(m, cfg, h, text);
      m'.sent == m.sent + [CS.Outgoing(m.outbound + 1, m.compId, CS.SessionReject(h.msgSeqNum, h.msgType, text))] &&
      m'.outbound == m.outbound + 1 && m'.state == Zombie && !m'.open && Inv(m', cfg)
  {
    SendRejectQueued(m, cfg, h, text);
  }

  /** `make_zombie` reports Disconnected (with the username) exactly from
    * WAITING_USER_RESPONSE and READY, does nothing to a zombie, and
    * otherwise queues the session for removal. */
  lemma MakeZombieReports(m: Model, cfg: CS.Config)
    ensures var m' := AfterMakeZombie(m, cfg);
      m'.state == Zombie &&
      (m.state == Zombie ==> m' == m) &&
      (m.state != Zombie ==> cfg.sessionId in m'.registry.toRemove && cfg.sessionId !in m'.registry.sessionToUser) &&
      (m.state in {WaitingUserResponse, Ready} ==> m'.upcalls == m.upcalls + [Disconnected(cfg.sessionId, m.username)]) &&
      (m.state !in {WaitingUserResponse, Ready} ==> m'.upcalls == m.upcalls)
  {
  }

  /** Before READY any served business request draws Reject "NO LOGON" and
    * closes; in READY it is forwarded under the session's username, orders
    * stamped with the session's party, or refused if the client named
    * parties itself. */
  lemma RequestGating(m: Model, cfg: CS.Config, h: Header, r: Request)
    requires Inv(m, cfg) && !Unsupported(r)
    ensures var m' := AfterRequest(m, cfg, h, r);
      (m.state in {WaitingLogon, WaitingUserResponse} ==>
         m'.state == Zombie && !m'.open && m'.sent == m.sent + [CS.Outgoing(m.outbound + 1, m.compId, CS.SessionReject(h.msgSeqNum, h.msgType, NO_LOGON))] &&
         forall i :: |m.upcalls| <= i < |m'.upcalls| ==> !m'.upcalls[i].Forward?) &&
      (m.state == Ready && !Stamped(r) ==>
         m'.state == Ready && m'.sent == m.sent && m'.upcalls == m.upcalls + [Forward(r, m.username)]) &&
      (m.state == Ready && Stamped(r) && |r.parties| == 0 ==>
         m'.state == Ready && m'.sent == m.sent &&
         m'.upcalls == m.upcalls + [Forward(CS.AddPartyIds(r, m.partyId).value, m.username)]) &&
      (m.state == Ready && Stamped(r) && |r.parties| > 0 ==>
         m'.state == Ready && m'.upcalls == m.upcalls &&
         m'.sent == m.sent + [CS.Outgoing(m.outbound + 1, m.compId, CS.BusinessReject(h.msgSeqNum, h.msgType, "", OtherBusinessReason, UNSUPPORTED_PARTY_IDS))])
  {
  }

  /** A client whose user is not confirmed in time gets Logout
    * "CREATE_ROUTE_TIMEOUT" and is disconnected; the controller hears of
    * it. */
  lemma CreateRouteTimeoutCloses(m: Model, cfg: CS.Config, now: nat)
    requires Inv(m, cfg) && m.state == WaitingUserResponse && m.userResponseTimeout < now
    ensures var m' := AfterTimer(m, cfg, now);
      m'.state == Zombie && !m'.open &&
      m'.sent == m.sent + [CS.Outgoing(m.outbound + 1, m.compId, CS.LogoutMsg(CREATE_ROUTE_TIMEOUT))] &&
      m'.upcalls == m.upcalls + [Disconnected(cfg.sessionId, m.username)]
  {
  }
}

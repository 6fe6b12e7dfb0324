// One FIX client connection to the proxy (src/roq/proxy/fix/client/session.cpp).
//
// A session walks through WAITING_LOGON -> WAITING_CREATE_ROUTE -> READY ->
// WAITING_REMOVE_ROUTE and ends in ZOMBIE, from which it never leaves. The
// value type `Model` is everything the session owns plus the shared registry
// it updates and what it has emitted so far: messages sent to the client
// (`sent`) and calls made into the proxy's controller (`upcalls`). The
// functions `After...` say how each event moves a `Model`; the class
// `ClientSession.Session` holds the same state in fields and each of its methods is proved
// to move `View()` exactly as the matching function says.

module ClientSessionModel {
  import opened Common
  import opened Fix
  import opened SessionRegistry

  const GOODBYE: string := "goodbye"
  const MISSING_HEARTBEAT: string := "MISSING HEARTBEAT"
  const NO_LOGON: string := "NO LOGON"
  const UNEXPECTED_LOGON: string := "UNEXPECTED LOGON"
  const UNEXPECTED_MSG_TYPE: string := "UNEXPECTED MSG_TYPE"
  const UNKNOWN_TARGET_COMP_ID: string := "UNKNOWN TARGET_COMP_ID"
  const UNSUPPORTED_MSG_TYPE: string := "UNSUPPORTED MSG_TYPE"
  const UNSUPPORTED_PARTY_IDS: string := "UNSUPPORTED PARTY_IDS"
  const USER_RESPONSE_TIMEOUT: string := "USER_RESPONSE_TIMEOUT"
  const INVALID_REQ_ID: string := "INVALID_REQ_ID"
  const INVALID_MD_REQ_ID: string := "INVALID_MD_REQ_ID"
  const INVALID_CL_ORD_ID: string := "INVALID_CL_ORD_ID"
  const INVALID_ORIG_CL_ORD_ID: string := "INVALID_ORIG_CL_ORD_ID"

  const NANOS_PER_SECOND: nat := 1_000_000_000

  datatype State = WaitingLogon | WaitingCreateRoute | Ready | WaitingRemoveRoute | Zombie

  /** What the framing layer makes of the front of the receive buffer: not a
    * whole message yet, a message of `consumed` bytes, a message whose header
    * decoded but whose body did not, or bytes it cannot frame at all. */
  datatype Frame = Incomplete | Decoded(consumed: nat, message: Message) | Undecodable(header: Header) | Malformed

  /** Per-session settings; times are in nanoseconds. `validReqId` is the
    * web-safe Base64 check applied to client-chosen ids and `reader` the FIX
    * framing and decoding. */
  datatype Config = Config(
    sessionId: nat,
    compId: string,
    heartbeatFreq: nat,
    logonTimeout: nat,
    requestTimeout: nat,
    validReqId: string -> bool,
    reader: seq<byte> -> Frame)

  /** The reader never claims more bytes than it was given, and a decoded
    * message always takes at least one. */
  ghost predicate ReaderContract(reader: seq<byte> -> Frame)
  {
    forall b {:trigger reader(b)} :: reader(b).Decoded? ==> 0 < reader(b).consumed <= |b|
  }

  /** Messages the session sends to its client. */
  datatype ToClient =
    | LogonReply(heartBtInt: nat)
    | LogoutMsg(text: string)
    | HeartbeatMsg(testReqId: string)
    | TestRequestMsg(testReqId: string)
    | SessionReject(refSeqNum: nat, refMsgType: MsgType, text: string)
    | BusinessReject(refSeqNum: nat, refMsgType: MsgType, refId: string, reason: BusinessRejectReason, text: string)
    | Relayed(event: Event)

  /** A message as it goes out: MsgSeqNum, TargetCompID and body. */
  datatype Outgoing = Outgoing(seqNum: nat, targetCompId: string, body: ToClient)

  /** Calls the session makes into the controller. */
  datatype Upcall =
    | UserRequest(userRequestId: string, kind: UserRequestKind, username: string)
    | Forward(request: Request)
    | Disconnected(sessionId: nat)

  datatype Model = Model(
    state: State,
    compId: string,
    username: string,
    partyId: string,
    inbound: nat,
    outbound: nat,
    nextHeartbeat: nat,
    waitingForHeartbeat: bool,
    logonTimeout: nat,
    userResponseTimeout: nat,
    open: bool,
    pending: seq<byte>,
    sent: seq<Outgoing>,
    upcalls: seq<Upcall>,
    registry: Registry)

  /** A session as accepted at time `now`. */
  function Accepted(cfg: Config, registry: Registry, now: nat): Model
  {
    Model(WaitingLogon, "", "", "", 0, 0, 0, false, now + cfg.logonTimeout, 0, true, [], [], [], registry)
  }

  /** HeartBtInt in whole seconds, truncated to the 16 bits of the field. */
  function HeartBtInt(cfg: Config): (r: nat)
    ensures r < 0x1_0000
  {
    (cfg.heartbeatFreq / NANOS_PER_SECOND) % 0x1_0000
  }

  // ---------------------------------------------------------------------------
  // Sending and closing

  function AfterSend(m: Model, body: ToClient): Model
  {
    m.(outbound := m.outbound + 1, sent := m.sent + [Outgoing(m.outbound + 1, m.compId, body)])
  }

  /** Tell the controller about the lost route (unless the client never
    * logged on), become a zombie and queue the session for removal. */
  function AfterMakeZombie(m: Model, cfg: Config): Model
  {
    match m.state
    case Zombie => m
    case WaitingLogon => m.(state := Zombie, registry := Remove(m.registry, cfg.sessionId))
    case _ =>
      m.(upcalls := m.upcalls + [Disconnected(cfg.sessionId)], state := Zombie,
         registry := Remove(m.registry, cfg.sessionId))
  }

  function AfterClose(m: Model, cfg: Config): Model
  {
    if m.state != Zombie then AfterMakeZombie(m.(open := false), cfg) else m
  }

  function AfterSendAndClose(m: Model, cfg: Config, body: ToClient): Model
  {
    AfterClose(AfterSend(m, body), cfg)
  }

  function AfterRejectAndClose(m: Model, cfg: Config, h: Header, text: string): Model
  {
    AfterSendAndClose(m, cfg, SessionReject(h.msgSeqNum, h.msgType, text))
  }

  function AfterBusinessReject(m: Model, h: Header, refId: string, reason: BusinessRejectReason, text: string): Model
  {
    AfterSend(m, BusinessReject(h.msgSeqNum, h.msgType, refId, reason, text))
  }

  // ---------------------------------------------------------------------------
  // Events from the proxy

  /** The TestReqID of a heartbeat probe: the timer's `now`, a duration in
    * nanoseconds, as `fmt` writes a duration: its count followed by the
    * unit. */
  function ProbeId(now: nat): (id: string)
    ensures |id| > 2 && id[|id| - 2..] == "ns" && IsDigits(id[..|id| - 2])
  {
    Decimal(now) + "ns"
  }

  function AfterTimer(m: Model, cfg: Config, now: nat): Model
  {
    match m.state
    case WaitingLogon => if m.logonTimeout < now then AfterClose(m, cfg) else m
    case WaitingCreateRoute =>
      if m.userResponseTimeout < now then AfterSendAndClose(m, cfg, LogoutMsg(USER_RESPONSE_TIMEOUT)) else m
    case Ready =>
      if m.nextHeartbeat < now then
        var m1 := m.(nextHeartbeat := now + cfg.heartbeatFreq);
        if m1.waitingForHeartbeat then AfterSendAndClose(m1, cfg, LogoutMsg(MISSING_HEARTBEAT))
        else AfterSend(m1, TestRequestMsg(ProbeId(now))).(waitingForHeartbeat := true)
      else m
    case WaitingRemoveRoute =>
      if m.userResponseTimeout < now then AfterSendAndClose(m, cfg, LogoutMsg(USER_RESPONSE_TIMEOUT)) else m
    case Zombie => m
  }

  /** The answer of the upstream to the session's user request. */
  function AfterUserResponse(m: Model, cfg: Config, status: UserStatus): Model
  {
    var m1 := m.(userResponseTimeout := 0);
    match m1.state
    case WaitingCreateRoute =>
      if status == LoggedIn then AfterSend(m1, LogonReply(HeartBtInt(cfg))).(state := Ready)
      else AfterMakeZombie(m1, cfg)
    case WaitingRemoveRoute =>
      if status == NotLoggedIn then
        var m2 := m1.(registry := Logout(m1.registry, cfg.sessionId));
        if LogoutOutcomeOf(m1.registry, cfg.sessionId).LoggedOut? then
          AfterSendAndClose(m2, cfg, LogoutMsg(GOODBYE))
        else AfterMakeZombie(m2, cfg)
      else AfterMakeZombie(m1, cfg)
    case _ => m1
  }

  /** A response or report from upstream, relayed only to a READY client. */
  function AfterEvent(m: Model, e: Event): Model
  {
    if m.state == Ready then AfterSend(m, Relayed(e)) else m
  }

  function AfterForceDisconnect(m: Model, cfg: Config): Model
  {
    if m.state == Zombie then m else AfterClose(m, cfg)
  }

  // ---------------------------------------------------------------------------
  // Messages from the client

  datatype Sequencing = InSequence | Gap(distance: nat) | Replay(distance: nat)

  /** How an inbound MsgSeqNum relates to the previous one; only logged. */
  function Classify(previous: nat, current: nat): (s: Sequencing)
    ensures s.InSequence? <==> current == previous + 1
    ensures s.Gap? <==> current > previous + 1
    ensures s.Replay? <==> current <= previous
    ensures s.Gap? ==> s.distance == current - previous
    ensures s.Replay? ==> s.distance == previous - current
  {
    if current == previous + 1 then InSequence
    else if previous + 1 < current then Gap(current - previous)
    else Replay(previous - current)
  }

  /** The session adopts the client's MsgSeqNum whatever it is. */
  function AfterCheck(m: Model, h: Header): Model
  {
    m.(inbound := h.msgSeqNum)
  }

  /** The first message seen fixes the client's CompID. */
  function AdoptCompId(m: Model, h: Header): Model
  {
    if m.compId == "" then m.(compId := h.senderCompId) else m
  }

  function AfterTestRequest(m: Model, cfg: Config, h: Header, testReqId: string): Model
  {
    match m.state
    case WaitingLogon => AfterRejectAndClose(m, cfg, h, NO_LOGON)
    case WaitingCreateRoute => AfterSend(m, HeartbeatMsg(testReqId))
    case Ready => AfterSend(m, HeartbeatMsg(testReqId))
    case _ => m
  }

  function AfterResendRequest(m: Model, cfg: Config, h: Header): Model
  {
    match m.state
    case WaitingLogon => AfterRejectAndClose(m, cfg, h, NO_LOGON)
    case WaitingCreateRoute => AfterRejectAndClose(m, cfg, h, NO_LOGON)
    case Ready => AfterRejectAndClose(m, cfg, h, UNSUPPORTED_MSG_TYPE)
    case WaitingRemoveRoute => AfterMakeZombie(m, cfg)
    case Zombie => m
  }

  function AfterHeartbeat(m: Model, cfg: Config, h: Header): Model
  {
    match m.state
    case WaitingLogon => AfterRejectAndClose(m, cfg, h, NO_LOGON)
    case WaitingCreateRoute => AfterRejectAndClose(m, cfg, h, NO_LOGON)
    case Ready => m.(waitingForHeartbeat := false)
    case _ => m
  }

  /** `fault` is the reason text when the controller throws while taking the
    * user request. */
  function AfterLogon(m: Model, cfg: Config, h: Header, username: string, password: string,
                      now: nat, fault: Option<string>): Model
  {
    match m.state
    case WaitingLogon =>
      var m1 := m.(compId := h.senderCompId);
      if h.targetCompId != cfg.compId then AfterRejectAndClose(m1, cfg, h, UNKNOWN_TARGET_COMP_ID)
      else
        var m2 := m1.(registry := Logon(m1.registry, cfg.sessionId, username, password));
        var outcome := LogonOutcomeOf(m1.registry, username, password);
        if outcome.LogonFailed? then AfterRejectAndClose(m2, cfg, h, outcome.reason)
        else
          var r := NextRequestId(m2.registry);
          var partyId := Decimal(outcome.strategyId);
          var m3 := m2.(username := username, partyId := partyId, registry := r,
                        upcalls := m2.upcalls + [UserRequest(RequestId(r.nextRequestId), LogOnUser, partyId)]);
          if fault.Some? then AfterRejectAndClose(m3, cfg, h, fault.value)
          else m3.(state := WaitingCreateRoute, userResponseTimeout := now + cfg.requestTimeout)
    case WaitingCreateRoute => AfterRejectAndClose(m, cfg, h, UNEXPECTED_LOGON)
    case Ready => AfterRejectAndClose(m, cfg, h, UNEXPECTED_LOGON)
    case WaitingRemoveRoute => AfterMakeZombie(m, cfg)
    case Zombie => m
  }

  function AfterLogout(m: Model, cfg: Config, h: Header, now: nat): Model
  {
    match m.state
    case WaitingLogon => AfterRejectAndClose(m, cfg, h, NO_LOGON)
    case WaitingCreateRoute => AfterRejectAndClose(m, cfg, h, NO_LOGON)
    case Ready =>
      var r := NextRequestId(m.registry);
      m.(registry := r,
         upcalls := m.upcalls + [UserRequest(RequestId(r.nextRequestId), LogOffUser, m.partyId)],
         state := WaitingRemoveRoute,
         userResponseTimeout := now + cfg.requestTimeout)
    case WaitingRemoveRoute => AfterMakeZombie(m, cfg)
    case Zombie => m
  }

  /** The client-chosen ids of a request that must be valid, each with the
    * text of the reject it draws, in the order they are checked. */
  function IdChecks(r: Request): seq<(string, string)>
  {
    match r
    case SecurityListRequest(id) => [(id, INVALID_REQ_ID)]
    case SecurityDefinitionRequest(id, _) => [(id, INVALID_REQ_ID)]
    case SecurityStatusRequest(id, _) => [(id, INVALID_REQ_ID)]
    case MarketDataRequest(id, _, _, _) => [(id, INVALID_MD_REQ_ID)]
    case OrderStatusRequest(id, _, _, _) => [(id, INVALID_REQ_ID)]
    case OrderMassStatusRequest(id, _, _) => [(id, INVALID_REQ_ID)]
    case NewOrderSingle(id, _, _, _, _, _, _, _, _) => [(id, INVALID_CL_ORD_ID)]
    case OrderCancelRequest(id, orig, _, _) => [(id, INVALID_CL_ORD_ID), (orig, INVALID_ORIG_CL_ORD_ID)]
    case OrderCancelReplaceRequest(id, orig, _, _) => [(id, INVALID_CL_ORD_ID), (orig, INVALID_ORIG_CL_ORD_ID)]
    case OrderMassCancelRequest(id, _, _) => [(id, INVALID_CL_ORD_ID)]
    case RequestForPositions(id, _, _) => [(id, INVALID_REQ_ID)]
    case TradeCaptureReportRequest(id, _, _, _) => [(id, INVALID_REQ_ID)]
  }

  /** The first check that fails, if any. */
  function FirstInvalid(checks: seq<(string, string)>, valid: string -> bool): (f: Option<(string, string)>)
    ensures f.None? <==> forall i :: 0 <= i < |checks| ==> valid(checks[i].0)
    ensures f.Some? ==> exists i :: 0 <= i < |checks| && checks[i] == f.value && !valid(f.value.0) &&
                          forall j :: 0 <= j < i ==> valid(checks[j].0)
  {
    if |checks| == 0 then None
    else if !valid(checks[0].0) then Some(checks[0])
    else
      var rest := FirstInvalid(checks[1..], valid);
      if rest.Some? then
        assert exists i :: 0 <= i < |checks| && checks[i] == rest.value && !valid(rest.value.0) &&
                 forall j :: 0 <= j < i ==> valid(checks[j].0) by {
          var i :| 0 <= i < |checks[1..]| && checks[1..][i] == rest.value && !valid(rest.value.0) &&
                   forall j :: 0 <= j < i ==> valid(checks[1..][j].0);
          assert checks[i + 1] == rest.value;
          forall j | 0 <= j < i + 1 ensures valid(checks[j].0) {
            if j > 0 { assert checks[j] == checks[1..][j - 1]; }
          }
        }
        rest
      else rest
  }

  /** BusinessRejectRefID and Text of the reject sent when a request already
    * carries parties. */
  function PartyReject(r: Request): (string, string)
    requires HasParties(r)
  {
    match r
    case OrderStatusRequest(_, _, clOrdId, _) => (clOrdId, UNSUPPORTED_PARTY_IDS)
    case OrderMassStatusRequest(id, _, _) => (id, UNSUPPORTED_PARTY_IDS)
    case NewOrderSingle(clOrdId, _, _, _, _, _, _, _, _) => (clOrdId, UNSUPPORTED_PARTY_IDS)
    case OrderCancelRequest(clOrdId, _, _, _) => (clOrdId, UNSUPPORTED_PARTY_IDS)
    case OrderCancelReplaceRequest(clOrdId, _, _, _) => (clOrdId, UNSUPPORTED_PARTY_IDS)
    case OrderMassCancelRequest(clOrdId, _, _) => (clOrdId, UNSUPPORTED_MSG_TYPE)
    case RequestForPositions(id, _, _) => (id, UNSUPPORTED_PARTY_IDS)
    case TradeCaptureReportRequest(_, clOrdId, _, _) => (clOrdId, UNSUPPORTED_MSG_TYPE)
  }

  /** The party the proxy stamps on a client's orders. */
  function ClientParty(partyId: string): Party
  {
    Party(partyId, ProprietaryCustomCode, ClientId)
  }

  /** A request without parties gets exactly the session's own party; a
    * request that already names parties is refused. */
  function AddPartyIds(r: Request, partyId: string): (res: Option<Request>)
    requires HasParties(r)
    ensures res.Some? <==> |r.parties| == 0
    ensures res.Some? ==> HasParties(res.value) && res.value.parties == [ClientParty(partyId)] &&
                          res.value.(parties := r.parties) == r
  {
    if |r.parties| == 0 then Some(r.(parties := [ClientParty(partyId)])) else None
  }

  function AfterRequest(m: Model, cfg: Config, h: Header, r: Request): Model
  {
    match m.state
    case WaitingLogon => AfterRejectAndClose(m, cfg, h, NO_LOGON)
    case WaitingCreateRoute => AfterRejectAndClose(m, cfg, h, NO_LOGON)
    case Ready =>
      var invalid := FirstInvalid(IdChecks(r), cfg.validReqId);
      if invalid.Some? then AfterBusinessReject(m, h, invalid.value.0, OtherBusinessReason, invalid.value.1)
      else if !HasParties(r) then m.(upcalls := m.upcalls + [Forward(r)])
      else
        var stamped := AddPartyIds(r, m.partyId);
        if stamped.Some? then m.(upcalls := m.upcalls + [Forward(stamped.value)])
        else AfterBusinessReject(m, h, PartyReject(r).0, OtherBusinessReason, PartyReject(r).1)
    case WaitingRemoveRoute => AfterMakeZombie(m, cfg)
    case Zombie => m
  }

  /** The session-level and authentication messages, which the session
    * answers itself. */
  predicate IsAdministrative(b: Body)
  {
    b.TestRequestBody? || b.ResendRequestBody? || b.RejectBody? || b.HeartbeatBody? ||
    b.LogonBody? || b.LogoutBody?
  }

  function AfterAdministrative(m: Model, cfg: Config, msg: Message, now: nat, fault: Option<string>): Model
    requires IsAdministrative(msg.body)
  {
    var h := msg.header;
    match msg.body
    case TestRequestBody(id) => AfterTestRequest(m, cfg, h, id)
    case ResendRequestBody => AfterResendRequest(m, cfg, h)
    case RejectBody(_) => AfterClose(m, cfg)
    case HeartbeatBody(_) => AfterHeartbeat(m, cfg, h)
    case LogonBody(u, p) => AfterLogon(m, cfg, h, u, p, now, fault)
    case LogoutBody(_) => AfterLogout(m, cfg, h, now)
  }

  /** Requests, and anything else, which a READY session forwards or
    * refuses. */
  function AfterApplication(m: Model, cfg: Config, msg: Message): Model
    requires !IsAdministrative(msg.body)
  {
    var h := msg.header;
    match msg.body
    case TradingSessionStatusRequestBody(id) => AfterBusinessReject(m, h, id, UnsupportedMessageType, UNEXPECTED_MSG_TYPE)
    case RequestBody(r) => AfterRequest(m, cfg, h, r)
    case EventBody(_) => AfterBusinessReject(m, h, "", UnsupportedMessageType, UNEXPECTED_MSG_TYPE)
    case UnknownBody(_) => AfterBusinessReject(m, h, "", UnsupportedMessageType, UNEXPECTED_MSG_TYPE)
  }

  /** Dispatch one decoded message on its type, after the first message seen
    * has fixed the client's CompID. */
  function AfterParse(m: Model, cfg: Config, msg: Message, now: nat, fault: Option<string>): Model
  {
    var m1 := AdoptCompId(m, msg.header);
    if IsAdministrative(msg.body) then AfterAdministrative(m1, cfg, msg, now, fault)
    else AfterApplication(m1, cfg, msg)
  }

  datatype Drained = Drained(model: Model, consumed: nat, failed: bool)

  /** Frame and handle messages from the front of `buf` until the buffer is
    * used up, a message is incomplete, decoding throws, or the session has
    * become a zombie. */
  function Drain(m: Model, cfg: Config, buf: seq<byte>, now: nat, fault: Option<string>): (d: Drained)
    requires ReaderContract(cfg.reader)
    ensures d.consumed <= |buf|
    decreases |buf|
  {
    if |buf| == 0 || m.state == Zombie then Drained(m, 0, false)
    else
      match cfg.reader(buf)
      case Incomplete => Drained(m, 0, false)
      case Malformed => Drained(m, 0, true)
      case Undecodable(h) => Drained(AdoptCompId(AfterCheck(m, h), h), 0, true)
      case Decoded(n, msg) =>
        var d := Drain(AfterParse(AfterCheck(m, msg.header), cfg, msg, now, fault), cfg, buf[n..], now, fault);
        Drained(d.model, n + d.consumed, d.failed)
  }

  /** Bytes arrive: append them to the buffer, handle every whole message and
    * keep the unused tail; a decoding error closes the session. */
  function AfterRead(m: Model, cfg: Config, incoming: seq<byte>, now: nat, fault: Option<string>): Model
    requires ReaderContract(cfg.reader)
  {
    if m.state == Zombie then m
    else
      var buf := m.pending + incoming;
      var d := Drain(m.(pending := buf), cfg, buf, now, fault);
      if d.failed then AfterClose(d.model, cfg) else d.model.(pending := buf[d.consumed..])
  }

  /** Everything that can happen to a session from outside. */
  datatype Input =
    | TimerTick(now: nat)
    | UserResponseIn(status: UserStatus)
    | EventIn(event: Event)
    | ForceDisconnect
    | BytesIn(incoming: seq<byte>, now: nat, fault: Option<string>)
    | PeerDisconnected

  function Step(m: Model, cfg: Config, input: Input): Model
    requires ReaderContract(cfg.reader)
  {
    match input
    case TimerTick(now) => AfterTimer(m, cfg, now)
    case UserResponseIn(status) => AfterUserResponse(m, cfg, status)
    case EventIn(e) => AfterEvent(m, e)
    case ForceDisconnect => AfterForceDisconnect(m, cfg)
    case BytesIn(incoming, now, fault) => AfterRead(m, cfg, incoming, now, fault)
    case PeerDisconnected => AfterMakeZombie(m, cfg)
  }

  // ---------------------------------------------------------------------------
  // Invariant

  /** Outbound MsgSeqNums are 1, 2, 3, ... in the order the messages went out. */
  /** Probes sent at different instants carry different TestReqIDs. */
  lemma ProbeIdInjective(a: nat, b: nat)
    requires ProbeId(a) == ProbeId(b)
    ensures a == b
  {
    assert Decimal(a) == ProbeId(a)[..|ProbeId(a)| - 2];
    assert Decimal(b) == ProbeId(b)[..|ProbeId(b)| - 2];
    DecimalInjective(a, b);
  }

  ghost predicate Numbered(sent: seq<Outgoing>, outbound: nat)
  {
    |sent| == outbound && forall i :: 0 <= i < |sent| ==> sent[i].seqNum == i + 1
  }

  /** The registry binds this session to its username exactly while the
    * session holds a route (WAITING_CREATE_ROUTE, READY, WAITING_REMOVE_ROUTE);
    * a session that is not a zombie still has its connection; a zombie is
    * queued for removal. */
  ghost predicate Inv(m: Model, cfg: Config)
  {
    Bijective(m.registry) &&
    Numbered(m.sent, m.outbound) &&
    (m.state != Zombie ==> m.open) &&
    (m.state == WaitingLogon ==> cfg.sessionId !in m.registry.sessionToUser) &&
    (m.state in {WaitingCreateRoute, Ready, WaitingRemoveRoute} ==>
       cfg.sessionId in m.registry.sessionToUser && m.registry.sessionToUser[cfg.sessionId] == m.username) &&
    (m.state == Zombie ==> cfg.sessionId !in m.registry.sessionToUser && cfg.sessionId in m.registry.toRemove)
  }

  /** The part of `Inv` that holds even in the middle of a handler. */
  ghost predicate Weak(m: Model, cfg: Config)
  {
    Bijective(m.registry) && Numbered(m.sent, m.outbound) &&
    (m.state == Zombie ==> cfg.sessionId !in m.registry.sessionToUser && cfg.sessionId in m.registry.toRemove)
  }

  // ---------------------------------------------------------------------------
  // Properties

  lemma SendKeepsNumbering(m: Model, body: ToClient)
    requires Numbered(m.sent, m.outbound)
    ensures Numbered(AfterSend(m, body).sent, AfterSend(m, body).outbound)
  {
  }

  /** Whatever state it is in, a session that turns zombie ends unbound and
    * queued for removal. */
  lemma ZombieQueued(m: Model, cfg: Config)
    requires Weak(m, cfg)
    ensures Inv(AfterMakeZombie(m, cfg), cfg) && Inv(AfterClose(m, cfg), cfg)
    ensures AfterMakeZombie(m, cfg).state == Zombie && AfterClose(m, cfg).state == Zombie
  {
    if m.state != Zombie {
      RemoveQueuesAndIsIdempotent(m.registry, cfg.sessionId);
      RemoveQueuesAndIsIdempotent(m.(open := false).registry, cfg.sessionId);
    }
  }

  lemma SendAndCloseQueued(m: Model, cfg: Config, body: ToClient)
    requires Weak(m, cfg)
    ensures Inv(AfterSendAndClose(m, cfg, body), cfg)
  {
    SendKeepsNumbering(m, body);
    ZombieQueued(AfterSend(m, body), cfg);
  }

  lemma TimerKeepsInv(m: Model, cfg: Config, now: nat)
    requires Inv(m, cfg)
    ensures Inv(AfterTimer(m, cfg, now), cfg)
  {
    ZombieQueued(m, cfg);
    SendAndCloseQueued(m, cfg, LogoutMsg(USER_RESPONSE_TIMEOUT));
    var m1 := m.(nextHeartbeat := now + cfg.heartbeatFreq);
    SendAndCloseQueued(m1, cfg, LogoutMsg(MISSING_HEARTBEAT));
    SendKeepsNumbering(m1, TestRequestMsg(ProbeId(now)));
  }

  lemma UserResponseKeepsInv(m: Model, cfg: Config, status: UserStatus)
    requires Inv(m, cfg)
    ensures Inv(AfterUserResponse(m, cfg, status), cfg)
  {
    var m1 := m.(userResponseTimeout := 0);
    ZombieQueued(m1, cfg);
    SendKeepsNumbering(m1, LogonReply(HeartBtInt(cfg)));
    if m1.state == WaitingRemoveRoute && status == NotLoggedIn {
      UnbindKeepsBijection(m1.registry, cfg.sessionId);
      var m2 := m1.(registry := Logout(m1.registry, cfg.sessionId));
      SendAndCloseQueued(m2, cfg, LogoutMsg(GOODBYE));
      ZombieQueued(m2, cfg);
    }
  }

  lemma LogonKeepsInv(m: Model, cfg: Config, h: Header, username: string, password: string,
                      now: nat, fault: Option<string>)
    requires Inv(m, cfg)
    ensures Inv(AfterLogon(m, cfg, h, username, password, now, fault), cfg)
  {
    var reject := SessionReject(h.msgSeqNum, h.msgType, UNEXPECTED_LOGON);
    SendAndCloseQueued(m, cfg, reject);
    ZombieQueued(m, cfg);
    if m.state == WaitingLogon {
      var m1 := m.(compId := h.senderCompId);
      SendAndCloseQueued(m1, cfg, SessionReject(h.msgSeqNum, h.msgType, UNKNOWN_TARGET_COMP_ID));
      LogonBinds(m1.registry, cfg.sessionId, username, password);
      var m2 := m1.(registry := Logon(m1.registry, cfg.sessionId, username, password));
      var outcome := LogonOutcomeOf(m1.registry, username, password);
      if outcome.LogonFailed? {
        SendAndCloseQueued(m2, cfg, SessionReject(h.msgSeqNum, h.msgType, outcome.reason));
      } else {
        var r := NextRequestId(m2.registry);
        var partyId := Decimal(outcome.strategyId);
        var m3 := m2.(username := username, partyId := partyId, registry := r,
                      upcalls := m2.upcalls + [UserRequest(RequestId(r.nextRequestId), LogOnUser, partyId)]);
        if fault.Some? {
          SendAndCloseQueued(m3, cfg, SessionReject(h.msgSeqNum, h.msgType, fault.value));
        }
      }
    }
  }

  lemma RequestKeepsInv(m: Model, cfg: Config, h: Header, r: Request)
    requires Inv(m, cfg)
    ensures Inv(AfterRequest(m, cfg, h, r), cfg)
  {
    match m.state
    case WaitingLogon => SendAndCloseQueued(m, cfg, SessionReject(h.msgSeqNum, h.msgType, NO_LOGON));
    case WaitingCreateRoute => SendAndCloseQueued(m, cfg, SessionReject(h.msgSeqNum, h.msgType, NO_LOGON));
    case Ready => ReadyRequestKeepsInv(m, cfg, h, r);
    case WaitingRemoveRoute => ZombieQueued(m, cfg);
    case Zombie =>
  }

  lemma ReadyRequestKeepsInv(m: Model, cfg: Config, h: Header, r: Request)
    requires Inv(m, cfg) && m.state == Ready
    ensures Inv(AfterRequest(m, cfg, h, r), cfg)
  {
    var invalid := FirstInvalid(IdChecks(r), cfg.validReqId);
    if invalid.Some? {
      SendKeepsNumbering(m, BusinessReject(h.msgSeqNum, h.msgType, invalid.value.0, OtherBusinessReason, invalid.value.1));
    } else if HasParties(r) {
      SendKeepsNumbering(m, BusinessReject(h.msgSeqNum, h.msgType, PartyReject(r).0, OtherBusinessReason, PartyReject(r).1));
    }
  }

  lemma RejectAndCloseQueued(m: Model, cfg: Config, h: Header, text: string)
    requires Weak(m, cfg)
    ensures Inv(AfterRejectAndClose(m, cfg, h, text), cfg)
  {
    SendAndCloseQueued(m, cfg, SessionReject(h.msgSeqNum, h.msgType, text));
  }

  lemma BusinessRejectKeepsInv(m: Model, cfg: Config, h: Header, refId: string,
                               reason: BusinessRejectReason, text: string)
    requires Inv(m, cfg)
    ensures Inv(AfterBusinessReject(m, h, refId, reason, text), cfg)
  {
    SendKeepsNumbering(m, BusinessReject(h.msgSeqNum, h.msgType, refId, reason, text));
  }

  lemma TestRequestKeepsInv(m: Model, cfg: Config, h: Header, id: string)
    requires Inv(m, cfg)
    ensures Inv(AfterTestRequest(m, cfg, h, id), cfg)
  {
    RejectAndCloseQueued(m, cfg, h, NO_LOGON);
    SendKeepsNumbering(m, HeartbeatMsg(id));
  }

  lemma ResendRequestKeepsInv(m: Model, cfg: Config, h: Header)
    requires Inv(m, cfg)
    ensures Inv(AfterResendRequest(m, cfg, h), cfg)
  {
    RejectAndCloseQueued(m, cfg, h, NO_LOGON);
    RejectAndCloseQueued(m, cfg, h, UNSUPPORTED_MSG_TYPE);
    ZombieQueued(m, cfg);
  }

  lemma HeartbeatKeepsInv(m: Model, cfg: Config, h: Header)
    requires Inv(m, cfg)
    ensures Inv(AfterHeartbeat(m, cfg, h), cfg)
  {
    RejectAndCloseQueued(m, cfg, h, NO_LOGON);
  }

  lemma LogoutKeepsInv(m: Model, cfg: Config, h: Header, now: nat)
    requires Inv(m, cfg)
    ensures Inv(AfterLogout(m, cfg, h, now), cfg)
  {
    RejectAndCloseQueued(m, cfg, h, NO_LOGON);
    ZombieQueued(m, cfg);
  }

  lemma ParseKeepsInv(m: Model, cfg: Config, msg: Message, now: nat, fault: Option<string>)
    requires Inv(m, cfg)
    ensures Inv(AfterParse(m, cfg, msg, now, fault), cfg)
  {
    var m1 := AdoptCompId(m, msg.header);
    assert Inv(m1, cfg);
    if IsAdministrative(msg.body) {
      AdministrativeKeepsInv(m1, cfg, msg, now, fault);
    } else {
      ApplicationKeepsInv(m1, cfg, msg);
    }
  }

  lemma AdministrativeKeepsInv(m: Model, cfg: Config, msg: Message, now: nat, fault: Option<string>)
    requires Inv(m, cfg) && IsAdministrative(msg.body)
    ensures Inv(AfterAdministrative(m, cfg, msg, now, fault), cfg)
  {
    var h := msg.header;
    match msg.body
    case TestRequestBody(id) => TestRequestKeepsInv(m, cfg, h, id);
    case ResendRequestBody => ResendRequestKeepsInv(m, cfg, h);
    case RejectBody(_) => ZombieQueued(m, cfg);
    case HeartbeatBody(_) => HeartbeatKeepsInv(m, cfg, h);
    case LogonBody(u, p) => LogonKeepsInv(m, cfg, h, u, p, now, fault);
    case LogoutBody(_) => LogoutKeepsInv(m, cfg, h, now);
  }

  lemma ApplicationKeepsInv(m: Model, cfg: Config, msg: Message)
    requires Inv(m, cfg) && !IsAdministrative(msg.body)
    ensures Inv(AfterApplication(m, cfg, msg), cfg)
  {
    var h := msg.header;
    match msg.body
    case TradingSessionStatusRequestBody(id) =>
      BusinessRejectKeepsInv(m, cfg, h, id, UnsupportedMessageType, UNEXPECTED_MSG_TYPE);
    case RequestBody(r) => RequestKeepsInv(m, cfg, h, r);
    case EventBody(_) => BusinessRejectKeepsInv(m, cfg, h, "", UnsupportedMessageType, UNEXPECTED_MSG_TYPE);
    case UnknownBody(_) => BusinessRejectKeepsInv(m, cfg, h, "", UnsupportedMessageType, UNEXPECTED_MSG_TYPE);
  }

  /** One decoded message: `Drain` handles it and goes on with the rest. */
  lemma DrainDecoded(m: Model, cfg: Config, buf: seq<byte>, now: nat, fault: Option<string>)
    requires ReaderContract(cfg.reader)
    requires |buf| > 0 && m.state != Zombie && cfg.reader(buf).Decoded?
    ensures var n := cfg.reader(buf).consumed;
      var msg := cfg.reader(buf).message;
      var d := Drain(AfterParse(AfterCheck(m, msg.header), cfg, msg, now, fault), cfg, buf[n..], now, fault);
      Drain(m, cfg, buf, now, fault) == Drained(d.model, n + d.consumed, d.failed)
  {
  }

  /** The outcome of the read loop when it has used `total` bytes of `buf`
    * and the session is now `m`. */
  function Resume(m: Model, cfg: Config, buf: seq<byte>, total: nat, now: nat, fault: Option<string>): Drained
    requires ReaderContract(cfg.reader) && total <= |buf|
  {
    var d := Drain(m, cfg, buf[total..], now, fault);
    Drained(d.model, total + d.consumed, d.failed)
  }

  lemma ResumeDecoded(m: Model, cfg: Config, buf: seq<byte>, total: nat, now: nat, fault: Option<string>)
    requires ReaderContract(cfg.reader)
    requires total < |buf| && m.state != Zombie && cfg.reader(buf[total..]).Decoded?
    ensures var n := cfg.reader(buf[total..]).consumed;
      var msg := cfg.reader(buf[total..]).message;
      total + n <= |buf| &&
      Resume(m, cfg, buf, total, now, fault) ==
      Resume(AfterParse(AfterCheck(m, msg.header), cfg, msg, now, fault), cfg, buf, total + n, now, fault)
  {
    var n := cfg.reader(buf[total..]).consumed;
    assert buf[total..][n..] == buf[total + n..];
    DrainDecoded(m, cfg, buf[total..], now, fault);
  }

  /** The read loop stops at a frame that is not a whole message. */
  lemma ResumeStops(m: Model, cfg: Config, buf: seq<byte>, total: nat, now: nat, fault: Option<string>)
    requires ReaderContract(cfg.reader)
    requires total < |buf| && m.state != Zombie && !cfg.reader(buf[total..]).Decoded?
    ensures var f := cfg.reader(buf[total..]);
      Resume(m, cfg, buf, total, now, fault) ==
      Drained(if f.Undecodable? then AdoptCompId(AfterCheck(m, f.header), f.header) else m, total, !f.Incomplete?)
  {
  }

  /** ... and when the buffer is used up or the session has become a zombie. */
  lemma ResumeEnds(m: Model, cfg: Config, buf: seq<byte>, total: nat, now: nat, fault: Option<string>)
    requires ReaderContract(cfg.reader)
    requires total <= |buf| && (total == |buf| || m.state == Zombie)
    ensures Resume(m, cfg, buf, total, now, fault) == Drained(m, total, false)
  {
  }

  /** Whatever property every handled message and every undecodable header
    * keeps, the read loop keeps too. */
  lemma {:induction false} DrainKeeps(P: Model -> bool, m: Model, cfg: Config, buf: seq<byte>, now: nat,
                                      fault: Option<string>)
    requires ReaderContract(cfg.reader)
    requires forall m': Model, msg: Message :: P(m') ==> P(AfterParse(AfterCheck(m', msg.header), cfg, msg, now, fault))
    requires forall m': Model, h: Header :: P(m') ==> P(AdoptCompId(AfterCheck(m', h), h))
    requires P(m)
    ensures P(Drain(m, cfg, buf, now, fault).model)
    decreases |buf|
  {
    if |buf| > 0 && m.state != Zombie && cfg.reader(buf).Decoded? {
      var n, msg := cfg.reader(buf).consumed, cfg.reader(buf).message;
      DrainKeeps(P, AfterParse(AfterCheck(m, msg.header), cfg, msg, now, fault), cfg, buf[n..], now, fault);
    }
  }

  lemma DrainKeepsInv(m: Model, cfg: Config, buf: seq<byte>, now: nat, fault: Option<string>)
    requires ReaderContract(cfg.reader)
    requires Inv(m, cfg)
    ensures Inv(Drain(m, cfg, buf, now, fault).model, cfg)
  {
    var P := (x: Model) => Inv(x, cfg);
    forall m': Model, msg: Message | P(m')
      ensures P(AfterParse(AfterCheck(m', msg.header), cfg, msg, now, fault))
    {
      ParseKeepsInv(AfterCheck(m', msg.header), cfg, msg, now, fault);
    }
    DrainKeeps(P, m, cfg, buf, now, fault);
  }

  /** Every input keeps the invariant: the registry binding follows the
    * session's state and outbound messages stay consecutively numbered. */
  lemma StepKeepsInv(m: Model, cfg: Config, input: Input)
    requires ReaderContract(cfg.reader)
    requires Inv(m, cfg)
    ensures Inv(Step(m, cfg, input), cfg)
  {
    match input
    case TimerTick(now) => TimerKeepsInv(m, cfg, now);
    case UserResponseIn(status) => UserResponseKeepsInv(m, cfg, status);
    case EventIn(e) => SendKeepsNumbering(m, Relayed(e));
    case ForceDisconnect => ZombieQueued(m, cfg);
    case BytesIn(incoming, now, fault) =>
      if m.state != Zombie {
        var buf := m.pending + incoming;
        DrainKeepsInv(m.(pending := buf), cfg, buf, now, fault);
        ZombieQueued(Drain(m.(pending := buf), cfg, buf, now, fault).model, cfg);
      }
    case PeerDisconnected => ZombieQueued(m, cfg);
  }

  /** A fresh session satisfies the invariant as long as the registry does
    * not know its id yet. */
  lemma AcceptedInv(cfg: Config, registry: Registry, now: nat)
    requires Bijective(registry) && cfg.sessionId !in registry.sessionToUser
    ensures Inv(Accepted(cfg, registry, now), cfg)
  {
  }

  /** ZOMBIE is final: nothing moves a zombie, sends anything, calls the
    * controller or touches the registry. */
  lemma ZombieIsFinal(m: Model, cfg: Config, input: Input)
    requires ReaderContract(cfg.reader)
    requires m.state == Zombie
    ensures var m' := Step(m, cfg, input);
      m'.state == Zombie && m'.sent == m.sent && m'.upcalls == m.upcalls && m'.registry == m.registry
  {
    match input
    case TimerTick(now) =>
    case UserResponseIn(status) =>
    case EventIn(e) =>
    case ForceDisconnect =>
    case BytesIn(incoming, now, fault) =>
    case PeerDisconnected =>
  }

  /** `after` extends `before` with no forwarded request. */
  ghost predicate NoForwardAdded(before: seq<Upcall>, after: seq<Upcall>)
  {
    |before| <= |after| && after[..|before|] == before &&
    forall i :: |before| <= i < |after| ==> !after[i].Forward?
  }

  lemma NoForwardAddedTrans(a: seq<Upcall>, b: seq<Upcall>, c: seq<Upcall>)
    requires NoForwardAdded(a, b) && NoForwardAdded(b, c)
    ensures NoForwardAdded(a, c)
  {
    assert c[..|a|] == c[..|b|][..|a|];
  }

  lemma AppendNoForward(a: seq<Upcall>, u: Upcall)
    requires !u.Forward?
    ensures NoForwardAdded(a, a + [u])
  {
    assert (a + [u])[..|a|] == a;
  }

  lemma SameNoForward(a: seq<Upcall>)
    ensures NoForwardAdded(a, a)
  {
    assert a[..|a|] == a;
  }

  /** Closing never forwards anything and never lands in READY. */
  lemma CloseOutsideReady(m: Model, cfg: Config)
    ensures AfterMakeZombie(m, cfg).state != Ready && AfterClose(m, cfg).state != Ready
    ensures NoForwardAdded(m.upcalls, AfterMakeZombie(m, cfg).upcalls)
    ensures NoForwardAdded(m.upcalls, AfterClose(m, cfg).upcalls)
  {
    SameNoForward(m.upcalls);
    AppendNoForward(m.upcalls, Disconnected(cfg.sessionId));
  }

  lemma RejectAndCloseOutsideReady(m: Model, cfg: Config, h: Header, text: string)
    ensures AfterRejectAndClose(m, cfg, h, text).state != Ready
    ensures NoForwardAdded(m.upcalls, AfterRejectAndClose(m, cfg, h, text).upcalls)
  {
    CloseOutsideReady(AfterSend(m, SessionReject(h.msgSeqNum, h.msgType, text)), cfg);
  }

  lemma LogonOutsideReady(m: Model, cfg: Config, h: Header, username: string, password: string,
                          now: nat, fault: Option<string>)
    requires m.state != Ready
    ensures AfterLogon(m, cfg, h, username, password, now, fault).state != Ready
    ensures NoForwardAdded(m.upcalls, AfterLogon(m, cfg, h, username, password, now, fault).upcalls)
  {
    SameNoForward(m.upcalls);
    CloseOutsideReady(m, cfg);
    RejectAndCloseOutsideReady(m, cfg, h, UNEXPECTED_LOGON);
    if m.state == WaitingLogon {
      var m1 := m.(compId := h.senderCompId);
      RejectAndCloseOutsideReady(m1, cfg, h, UNKNOWN_TARGET_COMP_ID);
      var m2 := m1.(registry := Logon(m1.registry, cfg.sessionId, username, password));
      var outcome := LogonOutcomeOf(m1.registry, username, password);
      if outcome.LogonFailed? {
        RejectAndCloseOutsideReady(m2, cfg, h, outcome.reason);
      } else {
        var r := NextRequestId(m2.registry);
        var partyId := Decimal(outcome.strategyId);
        var u := UserRequest(RequestId(r.nextRequestId), LogOnUser, partyId);
        var m3 := m2.(username := username, partyId := partyId, registry := r, upcalls := m2.upcalls + [u]);
        AppendNoForward(m.upcalls, u);
        if fault.Some? {
          RejectAndCloseOutsideReady(m3, cfg, h, fault.value);
          NoForwardAddedTrans(m.upcalls, m3.upcalls, AfterRejectAndClose(m3, cfg, h, fault.value).upcalls);
        }
      }
    }
  }

  /** Outside READY a message never reaches READY and never forwards a
    * request upstream. */
  lemma ParseOutsideReady(m: Model, cfg: Config, msg: Message, now: nat, fault: Option<string>)
    requires m.state != Ready
    ensures AfterParse(m, cfg, msg, now, fault).state != Ready
    ensures NoForwardAdded(m.upcalls, AfterParse(m, cfg, msg, now, fault).upcalls)
  {
    var m1 := AdoptCompId(m, msg.header);
    if IsAdministrative(msg.body) {
      AdministrativeOutsideReady(m1, cfg, msg, now, fault);
    } else {
      ApplicationOutsideReady(m1, cfg, msg);
    }
  }

  lemma AdministrativeOutsideReady(m: Model, cfg: Config, msg: Message, now: nat, fault: Option<string>)
    requires m.state != Ready && IsAdministrative(msg.body)
    ensures AfterAdministrative(m, cfg, msg, now, fault).state != Ready
    ensures NoForwardAdded(m.upcalls, AfterAdministrative(m, cfg, msg, now, fault).upcalls)
  {
    var h := msg.header;
    SameNoForward(m.upcalls);
    CloseOutsideReady(m, cfg);
    RejectAndCloseOutsideReady(m, cfg, h, NO_LOGON);
    match msg.body
    case TestRequestBody(id) =>
    case ResendRequestBody =>
    case RejectBody(_) =>
    case HeartbeatBody(_) =>
    case LogonBody(u, p) => LogonOutsideReady(m, cfg, h, u, p, now, fault);
    case LogoutBody(_) =>
  }

  lemma ApplicationOutsideReady(m: Model, cfg: Config, msg: Message)
    requires m.state != Ready && !IsAdministrative(msg.body)
    ensures AfterApplication(m, cfg, msg).state != Ready
    ensures NoForwardAdded(m.upcalls, AfterApplication(m, cfg, msg).upcalls)
  {
    SameNoForward(m.upcalls);
    CloseOutsideReady(m, cfg);
    RejectAndCloseOutsideReady(m, cfg, msg.header, NO_LOGON);
  }

  lemma DrainOutsideReady(m: Model, cfg: Config, buf: seq<byte>, now: nat, fault: Option<string>)
    requires ReaderContract(cfg.reader)
    requires m.state != Ready
    ensures Drain(m, cfg, buf, now, fault).model.state != Ready
    ensures NoForwardAdded(m.upcalls, Drain(m, cfg, buf, now, fault).model.upcalls)
  {
    var P := (x: Model) => x.state != Ready && NoForwardAdded(m.upcalls, x.upcalls);
    forall m': Model, msg: Message | P(m')
      ensures P(AfterParse(AfterCheck(m', msg.header), cfg, msg, now, fault))
    {
      var m1 := AfterCheck(m', msg.header);
      ParseOutsideReady(m1, cfg, msg, now, fault);
      NoForwardAddedTrans(m.upcalls, m1.upcalls, AfterParse(m1, cfg, msg, now, fault).upcalls);
    }
    SameNoForward(m.upcalls);
    DrainKeeps(P, m, cfg, buf, now, fault);
  }

  /** What a non-READY session can add to its upcalls on a timer tick or a
    * user response: at most the report of the lost route. */
  lemma TimerUpcalls(m: Model, cfg: Config, now: nat)
    requires m.state != Ready
    ensures AfterTimer(m, cfg, now).upcalls in {m.upcalls, m.upcalls + [Disconnected(cfg.sessionId)]}
  {
  }

  lemma UserResponseUpcalls(m: Model, cfg: Config, status: UserStatus)
    ensures AfterUserResponse(m, cfg, status).upcalls in {m.upcalls, m.upcalls + [Disconnected(cfg.sessionId)]}
  {
  }

  lemma ReadOutsideReady(m: Model, cfg: Config, incoming: seq<byte>, now: nat, fault: Option<string>)
    requires ReaderContract(cfg.reader)
    requires m.state != Ready
    ensures NoForwardAdded(m.upcalls, AfterRead(m, cfg, incoming, now, fault).upcalls)
  {
    SameNoForward(m.upcalls);
    if m.state != Zombie {
      var buf := m.pending + incoming;
      var d := Drain(m.(pending := buf), cfg, buf, now, fault);
      DrainOutsideReady(m.(pending := buf), cfg, buf, now, fault);
      if d.failed {
        CloseOutsideReady(d.model, cfg);
        NoForwardAddedTrans(m.upcalls, d.model.upcalls, AfterClose(d.model, cfg).upcalls);
      }
    }
  }

  /** A session that is not READY forwards nothing upstream, whatever
    * happens to it. */
  lemma ForwardOnlyWhenReady(m: Model, cfg: Config, input: Input)
    requires ReaderContract(cfg.reader)
    requires m.state != Ready
    ensures NoForwardAdded(m.upcalls, Step(m, cfg, input).upcalls)
  {
    SameNoForward(m.upcalls);
    AppendNoForward(m.upcalls, Disconnected(cfg.sessionId));
    match input
    case TimerTick(now) => TimerUpcalls(m, cfg, now);
    case UserResponseIn(status) => UserResponseUpcalls(m, cfg, status);
    case EventIn(e) =>
    case ForceDisconnect => CloseOutsideReady(m, cfg);
    case BytesIn(incoming, now, fault) => ReadOutsideReady(m, cfg, incoming, now, fault);
    case PeerDisconnected => CloseOutsideReady(m, cfg);
  }

  /** In READY a request is forwarded exactly when every client-chosen id is
    * valid and, for requests with a party list, the list is empty; the
    * forwarded copy then names the session's own party and is otherwise the
    * client's request. Otherwise the client gets one BusinessMessageReject.
    * Either way the session stays READY. */
  lemma ReadyRequest(m: Model, cfg: Config, h: Header, r: Request)
    requires m.state == Ready
    ensures var m' := AfterRequest(m, cfg, h, r);
      var accepted := FirstInvalid(IdChecks(r), cfg.validReqId).None? && (HasParties(r) ==> |r.parties| == 0);
      m'.state == Ready && m'.registry == m.registry &&
      (accepted ==>
         m'.sent == m.sent && |m'.upcalls| == |m.upcalls| + 1 && m'.upcalls[..|m.upcalls|] == m.upcalls &&
         var f := m'.upcalls[|m.upcalls|];
         f.Forward? &&
         (HasParties(r) ==> f.request == r.(parties := [ClientParty(m.partyId)])) &&
         (!HasParties(r) ==> f.request == r)) &&
      (!accepted ==>
         m'.upcalls == m.upcalls && |m'.sent| == |m.sent| + 1 && m'.sent[..|m.sent|] == m.sent &&
         m'.sent[|m.sent|].body.BusinessReject? && m'.sent[|m.sent|].body.refSeqNum == h.msgSeqNum)
  {
  }

  /** A client that never logs on is disconnected once the logon timeout has
    * passed; it never held a route, so the controller hears nothing. */
  lemma LogonTimeoutCloses(m: Model, cfg: Config, now: nat)
    requires m.state == WaitingLogon && m.logonTimeout < now
    ensures var m' := AfterTimer(m, cfg, now);
      m'.state == Zombie && !m'.open && m'.sent == m.sent && m'.upcalls == m.upcalls &&
      cfg.sessionId in m'.registry.toRemove
  {
  }

  /** Two heartbeat deadlines in a row without a Heartbeat from the client:
    * the first sends a TestRequest, the second sends Logout "MISSING
    * HEARTBEAT", closes the connection and reports the lost route. */
  lemma MissingHeartbeatCloses(m: Model, cfg: Config, t1: nat, t2: nat)
    requires m.state == Ready && !m.waitingForHeartbeat
    requires m.nextHeartbeat < t1 && t1 + cfg.heartbeatFreq < t2
    ensures var m1 := AfterTimer(m, cfg, t1);
      m1.state == Ready && m1.waitingForHeartbeat &&
      m1.sent == m.sent + [Outgoing(m.outbound + 1, m.compId, TestRequestMsg(ProbeId(t1)))]
    ensures var m2 := AfterTimer(AfterTimer(m, cfg, t1), cfg, t2);
      m2.state == Zombie && !m2.open &&
      m2.sent == m.sent + [Outgoing(m.outbound + 1, m.compId, TestRequestMsg(ProbeId(t1))),
                           Outgoing(m.outbound + 2, m.compId, LogoutMsg(MISSING_HEARTBEAT))] &&
      m2.upcalls == m.upcalls + [Disconnected(cfg.sessionId)]
  {
  }

  /** A Heartbeat from the client between two deadlines keeps the session
    * alive: the next deadline sends another TestRequest instead of a Logout. */
  lemma HeartbeatKeepsAlive(m: Model, cfg: Config, h: Header, t: nat)
    requires m.state == Ready && m.waitingForHeartbeat && m.nextHeartbeat < t
    ensures var m' := AfterTimer(AfterHeartbeat(m, cfg, h), cfg, t);
      m'.state == Ready && m'.waitingForHeartbeat && m'.sent[|m'.sent| - 1].body == TestRequestMsg(ProbeId(t))
  {
  }

  /** The whole life of a route: logon, the upstream confirms, logout, the
    * upstream confirms. The controller sees LOG_ON_USER and LOG_OFF_USER for
    * the user's strategy id, the client gets its Logon and the final Logout
    * "goodbye", and the registry ends as it began except that the session is
    * queued for removal. */
  lemma RouteLifecycle(m: Model, cfg: Config, h1: Header, h2: Header, username: string, password: string,
                       t1: nat, t2: nat)
    requires Inv(m, cfg) && m.state == WaitingLogon
    requires h1.targetCompId == cfg.compId
    requires LogonOutcomeOf(m.registry, username, password).LoggedOn?
    ensures var strategyId := LogonOutcomeOf(m.registry, username, password).strategyId;
      var a := AfterLogon(m, cfg, h1, username, password, t1, None);
      var b := AfterUserResponse(a, cfg, LoggedIn);
      var c := AfterLogout(b, cfg, h2, t2);
      var d := AfterUserResponse(c, cfg, NotLoggedIn);
      a.state == WaitingCreateRoute && b.state == Ready && c.state == WaitingRemoveRoute && d.state == Zombie &&
      a.upcalls == m.upcalls + [UserRequest(RequestId(m.registry.nextRequestId + 1), LogOnUser, Decimal(strategyId))] &&
      c.upcalls == a.upcalls + [UserRequest(RequestId(m.registry.nextRequestId + 2), LogOffUser, Decimal(strategyId))] &&
      d.upcalls == c.upcalls + [Disconnected(cfg.sessionId)] &&
      d.sent == m.sent + [Outgoing(m.outbound + 1, h1.senderCompId, LogonReply(HeartBtInt(cfg))),
                          Outgoing(m.outbound + 2, h1.senderCompId, LogoutMsg(GOODBYE))] &&
      d.registry.userToSession == m.registry.userToSession &&
      d.registry.sessionToUser == m.registry.sessionToUser &&
      d.registry.toRemove == m.registry.toRemove + {cfg.sessionId}
  {
    var r1 := Logon(m.registry, cfg.sessionId, username, password);
    LogoutUndoesLogon(m.registry, cfg.sessionId, username, password);
    var a := AfterLogon(m, cfg, h1, username, password, t1, None);
    LogonStep(m, cfg, h1, username, password, t1);
    var b := AfterUserResponse(a, cfg, LoggedIn);
    var c := AfterLogout(b, cfg, h2, t2);
    LogoutStep(b, cfg, h2, t2);
    assert c.registry.sessionToUser == r1.sessionToUser;
    RemoveRouteStep(c, cfg);
  }

  /** The steps of `RouteLifecycle`, one handler each. */
  lemma LogonStep(m: Model, cfg: Config, h: Header, username: string, password: string, now: nat)
    requires m.state == WaitingLogon && h.targetCompId == cfg.compId
    requires LogonOutcomeOf(m.registry, username, password).LoggedOn?
    ensures var r := NextRequestId(Logon(m.registry, cfg.sessionId, username, password));
      var party := Decimal(LogonOutcomeOf(m.registry, username, password).strategyId);
      AfterLogon(m, cfg, h, username, password, now, None) ==
        m.(compId := h.senderCompId, username := username, partyId := party, registry := r,
           upcalls := m.upcalls + [UserRequest(RequestId(r.nextRequestId), LogOnUser, party)],
           state := WaitingCreateRoute, userResponseTimeout := now + cfg.requestTimeout)
  {
  }

  lemma LogoutStep(m: Model, cfg: Config, h: Header, now: nat)
    requires m.state == Ready
    ensures var r := NextRequestId(m.registry);
      AfterLogout(m, cfg, h, now) ==
        m.(registry := r, upcalls := m.upcalls + [UserRequest(RequestId(r.nextRequestId), LogOffUser, m.partyId)],
           state := WaitingRemoveRoute, userResponseTimeout := now + cfg.requestTimeout)
  {
  }

  lemma RemoveRouteStep(m: Model, cfg: Config)
    requires m.state == WaitingRemoveRoute && cfg.sessionId in m.registry.sessionToUser
    ensures var d := AfterUserResponse(m, cfg, NotLoggedIn);
      var r := Logout(m.registry, cfg.sessionId);
      d.state == Zombie &&
      d.upcalls == m.upcalls + [Disconnected(cfg.sessionId)] &&
      d.sent == m.sent + [Outgoing(m.outbound + 1, m.compId, LogoutMsg(GOODBYE))] &&
      d.registry == Unbind(r.(toRemove := r.toRemove + {cfg.sessionId}), cfg.sessionId)
  {
  }
}

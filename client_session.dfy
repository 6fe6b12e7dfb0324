// The FIX client session as an object (src/roq/proxy/fix/client/session.cpp):
// its fields are the session's state and each method is proved to move
// `View()` exactly as the matching function of `ClientSessionModel` says.

module ClientSession {
  import opened Common
  import opened Fix
  import opened SessionRegistry
  import opened ClientSessionModel

  // ---------------------------------------------------------------------------
  // The session object

  /** The session's own fields, with the shared registry reached through
    * `shared`. `sent` stands for the connection's outbound byte stream and
    * `upcalls` for the calls made into the controller. */
  class Session {
    const config: Config
    const shared: Shared
    var state: State
    var compId: string
    var username: string
    var partyId: string
    var inbound: nat
    var outbound: nat
    var nextHeartbeat: nat
    var waitingForHeartbeat: bool
    var logonTimeout: nat
    var userResponseTimeout: nat
    var open: bool
    var pending: seq<byte>
    var sent: seq<Outgoing>
    var upcalls: seq<Upcall>

    ghost function View(): Model
      reads this, shared
    {
      Model(state, compId, username, partyId, inbound, outbound, nextHeartbeat, waitingForHeartbeat,
            logonTimeout, userResponseTimeout, open, pending, sent, upcalls, shared.Model())
    }

    ghost predicate Valid()
      reads this, shared
    {
      shared.Valid() && ReaderContract(config.reader) && Inv(View(), config)
    }

    constructor(config: Config, shared: Shared, now: nat)
      requires shared.Valid() && ReaderContract(config.reader) && config.sessionId !in shared.sessionToUser
      ensures this.config == config && this.shared == shared
      ensures View() == Accepted(config, shared.Model(), now)
      ensures Valid()
    {
      this.config := config;
      this.shared := shared;
      state := WaitingLogon;
      compId := "";
      username := "";
      partyId := "";
      inbound := 0;
      outbound := 0;
      nextHeartbeat := 0;
      waitingForHeartbeat := false;
      logonTimeout := now + config.logonTimeout;
      userResponseTimeout := 0;
      open := true;
      pending := [];
      sent := [];
      upcalls := [];
      new;
      AcceptedInv(config, shared.Model(), now);
    }

    // -- utilities

    method Send(body: ToClient)
      modifies this
      ensures View() == AfterSend(old(View()), body)
    {
      outbound := outbound + 1;
      sent := sent + [Outgoing(outbound, compId, body)];
    }

    method MakeZombie()
      requires shared.Valid()
      modifies this, shared
      ensures shared.Valid()
      ensures View() == AfterMakeZombie(old(View()), config)
    {
      if state == Zombie {
        return;
      }
      if state != WaitingLogon {
        upcalls := upcalls + [Disconnected(config.sessionId)];
      }
      state := Zombie;
      shared.SessionRemove(config.sessionId);
    }

    method Close()
      requires shared.Valid()
      modifies this, shared
      ensures shared.Valid()
      ensures View() == AfterClose(old(View()), config)
    {
      if state != Zombie {
        open := false;
        MakeZombie();
      }
    }

    method SendAndClose(body: ToClient)
      requires shared.Valid()
      modifies this, shared
      ensures shared.Valid()
      ensures View() == AfterSendAndClose(old(View()), config, body)
    {
      Send(body);
      Close();
    }

    method SendRejectAndClose(h: Header, text: string)
      requires shared.Valid()
      modifies this, shared
      ensures shared.Valid()
      ensures View() == AfterRejectAndClose(old(View()), config, h, text)
    {
      SendAndClose(SessionReject(h.msgSeqNum, h.msgType, text));
    }

    method SendBusinessMessageReject(h: Header, refId: string, reason: BusinessRejectReason, text: string)
      modifies this
      ensures View() == AfterBusinessReject(old(View()), h, refId, reason, text)
    {
      Send(BusinessReject(h.msgSeqNum, h.msgType, refId, reason, text));
    }

    // -- events from the proxy

    method OnTimer(now: nat)
      requires Valid()
      modifies this, shared
      ensures Valid()
      ensures View() == AfterTimer(old(View()), config, now)
    {
      TimerKeepsInv(View(), config, now);
      match state
      case WaitingLogon =>
        if logonTimeout < now {
          Close();
        }
      case WaitingCreateRoute =>
        if userResponseTimeout < now {
          SendAndClose(LogoutMsg(USER_RESPONSE_TIMEOUT));
        }
      case Ready =>
        if nextHeartbeat < now {
          nextHeartbeat := now + config.heartbeatFreq;
          if waitingForHeartbeat {
            SendAndClose(LogoutMsg(MISSING_HEARTBEAT));
          } else {
            Send(TestRequestMsg(ProbeId(now)));
            waitingForHeartbeat := true;
          }
        }
      case WaitingRemoveRoute =>
        if userResponseTimeout < now {
          SendAndClose(LogoutMsg(USER_RESPONSE_TIMEOUT));
        }
      case Zombie =>
    }

    method OnUserResponse(status: UserStatus)
      requires Valid()
      modifies this, shared
      ensures Valid()
      ensures View() == AfterUserResponse(old(View()), config, status)
    {
      UserResponseKeepsInv(View(), config, status);
      userResponseTimeout := 0;
      match state
      case WaitingCreateRoute =>
        if status == LoggedIn {
          Send(LogonReply(HeartBtInt(config)));
          state := Ready;
        } else {
          MakeZombie();
        }
      case WaitingRemoveRoute =>
        if status == NotLoggedIn {
          var outcome := shared.SessionLogout(config.sessionId);
          if outcome.LoggedOut? {
            SendAndClose(LogoutMsg(GOODBYE));
          } else {
            // the invariant keeps the session bound while it waits to remove
            // its route, so the registry cannot refuse
            assert false;
          }
        } else {
          MakeZombie();
        }
      case WaitingLogon =>
      case Ready =>
      case Zombie =>
    }

    /** A response or report from upstream for this client. */
    method OnEvent(e: Event)
      requires Valid()
      modifies this
      ensures Valid()
      ensures View() == AfterEvent(old(View()), e)
    {
      SendKeepsNumbering(View(), Relayed(e));
      if state == Ready {
        Send(Relayed(e));
      }
    }

    method ForceDisconnect()
      requires Valid()
      modifies this, shared
      ensures Valid()
      ensures View() == AfterForceDisconnect(old(View()), config)
    {
      ZombieQueued(View(), config);
      if state != Zombie {
        Close();
      }
    }

    method OnDisconnected()
      requires Valid()
      modifies this, shared
      ensures Valid()
      ensures View() == AfterMakeZombie(old(View()), config)
    {
      ZombieQueued(View(), config);
      MakeZombie();
    }

    // -- messages from the client

    method Check(h: Header) returns (sequencing: Sequencing)
      modifies this
      ensures View() == AfterCheck(old(View()), h)
      ensures sequencing == Classify(old(inbound), h.msgSeqNum)
    {
      sequencing := Classify(inbound, h.msgSeqNum);
      inbound := h.msgSeqNum;
    }

    method OnTestRequest(h: Header, testReqId: string)
      requires Valid()
      modifies this, shared
      ensures Valid()
      ensures View() == AfterTestRequest(old(View()), config, h, testReqId)
    {
      TestRequestKeepsInv(View(), config, h, testReqId);
      match state
      case WaitingLogon => SendRejectAndClose(h, NO_LOGON);
      case WaitingCreateRoute => Send(HeartbeatMsg(testReqId));
      case Ready => Send(HeartbeatMsg(testReqId));
      case WaitingRemoveRoute =>
      case Zombie =>
    }

    method OnResendRequest(h: Header)
      requires Valid()
      modifies this, shared
      ensures Valid()
      ensures View() == AfterResendRequest(old(View()), config, h)
    {
      ResendRequestKeepsInv(View(), config, h);
      match state
      case WaitingLogon => SendRejectAndClose(h, NO_LOGON);
      case WaitingCreateRoute => SendRejectAndClose(h, NO_LOGON);
      case Ready => SendRejectAndClose(h, UNSUPPORTED_MSG_TYPE);
      case WaitingRemoveRoute => MakeZombie();
      case Zombie =>
    }

    method OnHeartbeat(h: Header)
      requires Valid()
      modifies this, shared
      ensures Valid()
      ensures View() == AfterHeartbeat(old(View()), config, h)
    {
      HeartbeatKeepsInv(View(), config, h);
      match state
      case WaitingLogon => SendRejectAndClose(h, NO_LOGON);
      case WaitingCreateRoute => SendRejectAndClose(h, NO_LOGON);
      case Ready => waitingForHeartbeat := false;
      case WaitingRemoveRoute =>
      case Zombie =>
    }

    method OnLogon(h: Header, user: string, password: string, now: nat, fault: Option<string>)
      requires Valid()
      modifies this, shared
      ensures Valid()
      ensures View() == AfterLogon(old(View()), config, h, user, password, now, fault)
    {
      LogonKeepsInv(View(), config, h, user, password, now, fault);
      match state
      case WaitingLogon => FirstLogon(h, user, password, now, fault);
      case WaitingCreateRoute => SendRejectAndClose(h, UNEXPECTED_LOGON);
      case Ready => SendRejectAndClose(h, UNEXPECTED_LOGON);
      case WaitingRemoveRoute => MakeZombie();
      case Zombie =>
    }

    /** A Logon while waiting for one: check the target, then the
      * credentials, then ask the controller for a route. */
    method FirstLogon(h: Header, user: string, password: string, now: nat, fault: Option<string>)
      requires Valid() && state == WaitingLogon
      modifies this, shared
      ensures shared.Valid()
      ensures View() == AfterLogon(old(View()), config, h, user, password, now, fault)
    {
      compId := h.senderCompId;
      if h.targetCompId != config.compId {
        SendRejectAndClose(h, UNKNOWN_TARGET_COMP_ID);
      } else {
        ghost var m1 := View();
        var outcome := shared.SessionLogon(config.sessionId, user, password);
        assert outcome == LogonOutcomeOf(m1.registry, user, password);
        if outcome.LogonFailed? {
          SendRejectAndClose(h, outcome.reason);
        } else {
          RequestRoute(h, user, outcome.strategyId, now, fault);
        }
      }
    }

    /** The credentials were good: remember the user and its party, and send
      * the controller a LOG_ON_USER request. */
    method RequestRoute(h: Header, user: string, strategyId: nat, now: nat, fault: Option<string>)
      requires shared.Valid()
      modifies this, shared
      ensures shared.Valid()
      ensures var m2 := old(View());
        var r := NextRequestId(m2.registry);
        var partyId := Decimal(strategyId);
        var m3 := m2.(username := user, partyId := partyId, registry := r,
                      upcalls := m2.upcalls + [UserRequest(RequestId(r.nextRequestId), LogOnUser, partyId)]);
        View() == if fault.Some? then AfterRejectAndClose(m3, config, h, fault.value)
                  else m3.(state := WaitingCreateRoute, userResponseTimeout := now + config.requestTimeout)
    {
      RegisterUser(user, strategyId);
      if fault.Some? {
        SendRejectAndClose(h, fault.value);
      } else {
        state := WaitingCreateRoute;
        userResponseTimeout := now + config.requestTimeout;
      }
    }

    /** The first half of `RequestRoute`: the user, its party and the
      * LOG_ON_USER request under a fresh request id. */
    method RegisterUser(user: string, strategyId: nat)
      requires shared.Valid()
      modifies this, shared
      ensures shared.Valid()
      ensures var m2 := old(View());
        var r := NextRequestId(m2.registry);
        var partyId := Decimal(strategyId);
        View() == m2.(username := user, partyId := partyId, registry := r,
                      upcalls := m2.upcalls + [UserRequest(RequestId(r.nextRequestId), LogOnUser, partyId)])
    {
      var requestId := shared.CreateRequestId();
      var party := Decimal(strategyId);
      username, partyId := user, party;
      upcalls := upcalls + [UserRequest(requestId, LogOnUser, party)];
    }

    method OnLogout(h: Header, now: nat)
      requires Valid()
      modifies this, shared
      ensures Valid()
      ensures View() == AfterLogout(old(View()), config, h, now)
    {
      LogoutKeepsInv(View(), config, h, now);
      match state
      case WaitingLogon => SendRejectAndClose(h, NO_LOGON);
      case WaitingCreateRoute => SendRejectAndClose(h, NO_LOGON);
      case Ready =>
        var requestId := shared.CreateRequestId();
        upcalls := upcalls + [UserRequest(requestId, LogOffUser, partyId)];
        state := WaitingRemoveRoute;
        userResponseTimeout := now + config.requestTimeout;
      case WaitingRemoveRoute => MakeZombie();
      case Zombie =>
    }

    /** Any of the business requests: validate the client's ids, stamp the
      * session's party where the request has a party list, and forward. */
    method OnRequest(h: Header, r: Request)
      requires Valid()
      modifies this, shared
      ensures Valid()
      ensures View() == AfterRequest(old(View()), config, h, r)
    {
      RequestKeepsInv(View(), config, h, r);
      match state
      case WaitingLogon => SendRejectAndClose(h, NO_LOGON);
      case WaitingCreateRoute => SendRejectAndClose(h, NO_LOGON);
      case Ready =>
        var invalid := FirstInvalid(IdChecks(r), config.validReqId);
        if invalid.Some? {
          SendBusinessMessageReject(h, invalid.value.0, OtherBusinessReason, invalid.value.1);
        } else if !HasParties(r) {
          upcalls := upcalls + [Forward(r)];
        } else {
          var stamped := AddPartyIds(r, partyId);
          if stamped.Some? {
            upcalls := upcalls + [Forward(stamped.value)];
          } else {
            SendBusinessMessageReject(h, PartyReject(r).0, OtherBusinessReason, PartyReject(r).1);
          }
        }
      case WaitingRemoveRoute => MakeZombie();
      case Zombie =>
    }

    /** A session-level Reject from the client ends the session. */
    method OnReject()
      requires Valid()
      modifies this, shared
      ensures Valid()
      ensures View() == AfterClose(old(View()), config)
    {
      ZombieQueued(View(), config);
      Close();
    }

    /** Message types the proxy does not accept from a client. */
    method RejectUnexpected(h: Header, refId: string)
      requires Valid()
      modifies this
      ensures Valid()
      ensures View() == AfterBusinessReject(old(View()), h, refId, UnsupportedMessageType, UNEXPECTED_MSG_TYPE)
    {
      BusinessRejectKeepsInv(View(), config, h, refId, UnsupportedMessageType, UNEXPECTED_MSG_TYPE);
      SendBusinessMessageReject(h, refId, UnsupportedMessageType, UNEXPECTED_MSG_TYPE);
    }

    method AdoptSenderCompId(h: Header)
      requires Valid()
      modifies this
      ensures Valid()
      ensures View() == AdoptCompId(old(View()), h)
    {
      if compId == "" {
        compId := h.senderCompId;
      }
    }

    method Parse(msg: Message, now: nat, fault: Option<string>)
      requires Valid()
      modifies this, shared
      ensures Valid()
      ensures View() == AfterParse(old(View()), config, msg, now, fault)
    {
      AdoptSenderCompId(msg.header);
      if IsAdministrative(msg.body) {
        ParseAdministrative(msg, now, fault);
      } else {
        ParseApplication(msg);
      }
    }

    method ParseAdministrative(msg: Message, now: nat, fault: Option<string>)
      requires Valid() && IsAdministrative(msg.body)
      modifies this, shared
      ensures Valid()
      ensures View() == AfterAdministrative(old(View()), config, msg, now, fault)
    {
      var h := msg.header;
      match msg.body
      case TestRequestBody(id) => OnTestRequest(h, id);
      case ResendRequestBody => OnResendRequest(h);
      case RejectBody(_) => OnReject();
      case HeartbeatBody(_) => OnHeartbeat(h);
      case LogonBody(u, p) => OnLogon(h, u, p, now, fault);
      case LogoutBody(_) => OnLogout(h, now);
    }

    method ParseApplication(msg: Message)
      requires Valid() && !IsAdministrative(msg.body)
      modifies this, shared
      ensures Valid()
      ensures View() == AfterApplication(old(View()), config, msg)
    {
      var h := msg.header;
      match msg.body
      case TradingSessionStatusRequestBody(id) => RejectUnexpected(h, id);
      case RequestBody(r) => OnRequest(h, r);
      case EventBody(_) => RejectUnexpected(h, "");
      case UnknownBody(_) => RejectUnexpected(h, "");
    }

    /** Bytes arrived on the connection. */
    method OnRead(incoming: seq<byte>, now: nat, fault: Option<string>)
      requires Valid()
      modifies this, shared
      ensures Valid()
      ensures View() == AfterRead(old(View()), config, incoming, now, fault)
    {
      if state == Zombie {
        return;
      }
      pending := pending + incoming;
      var buf := pending;
      ghost var start := View();
      var total, failed := DrainBuffer(buf, now, fault);
      DrainKeepsInv(start, config, buf, now, fault);
      if failed {
        ZombieQueued(View(), config);
        Close();
      } else {
        pending := buf[total..];
      }
    }

    /** The read loop: frame and handle messages from `buf` until it runs
      * out, a message is incomplete, decoding fails, or the session is a
      * zombie. */
    method DrainBuffer(buf: seq<byte>, now: nat, fault: Option<string>) returns (total: nat, failed: bool)
      requires Valid()
      modifies this, shared
      ensures Valid()
      ensures Drain(old(View()), config, buf, now, fault) == Drained(View(), total, failed)
    {
      total := 0;
      failed := false;
      ghost var goal := Drain(View(), config, buf, now, fault);
      while total < |buf| && state != Zombie
        invariant total <= |buf|
        invariant Valid()
        invariant goal == Resume(View(), config, buf, total, now, fault)
        decreases |buf| - total
      {
        var next, stop, bad := ReadFrame(buf, total, now, fault);
        if stop {
          return total, bad;
        }
        total := next;
      }
      ResumeEnds(View(), config, buf, total, now, fault);
    }

    /** One turn of the read loop: frame the front of `buf[total..]` and
      * either handle the message or stop. */
    method ReadFrame(buf: seq<byte>, total: nat, now: nat, fault: Option<string>)
      returns (next: nat, stop: bool, failed: bool)
      requires Valid() && total < |buf| && state != Zombie
      modifies this, shared
      ensures Valid()
      ensures !stop ==> total < next <= |buf|
      ensures Resume(old(View()), config, buf, total, now, fault) ==
              if stop then Drained(View(), total, failed) else Resume(View(), config, buf, next, now, fault)
    {
      var frame := config.reader(buf[total..]);
      if !frame.Decoded? {
        ResumeStops(View(), config, buf, total, now, fault);
        if frame.Undecodable? {
          AdoptHeader(frame.header);
        }
        return total, true, !frame.Incomplete?;
      }
      HandleMessage(buf, total, now, fault);
      return total + frame.consumed, false, false;
    }

    /** The header of a message whose body did not decode still counts. */
    method AdoptHeader(h: Header)
      requires Valid()
      modifies this
      ensures Valid()
      ensures View() == AdoptCompId(AfterCheck(old(View()), h), h)
    {
      var _ := Check(h);
      AdoptSenderCompId(h);
    }

    /** Check and handle one decoded message. */
    method Handle(msg: Message, now: nat, fault: Option<string>)
      requires Valid()
      modifies this, shared
      ensures Valid()
      ensures View() == AfterParse(AfterCheck(old(View()), msg.header), config, msg, now, fault)
    {
      var _ := Check(msg.header);
      Parse(msg, now, fault);
    }

    /** Handle the message at the front of `buf[total..]`. */
    method HandleMessage(buf: seq<byte>, total: nat, now: nat, fault: Option<string>)
      requires Valid() && total < |buf| && state != Zombie && config.reader(buf[total..]).Decoded?
      modifies this, shared
      ensures Valid()
      ensures total + config.reader(buf[total..]).consumed <= |buf|
      ensures Resume(old(View()), config, buf, total, now, fault) ==
              Resume(View(), config, buf, total + config.reader(buf[total..]).consumed, now, fault)
    {
      ResumeDecoded(View(), config, buf, total, now, fault);
      Handle(config.reader(buf[total..]).message, now, fault);
    }

  }
}

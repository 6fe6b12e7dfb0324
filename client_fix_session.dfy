// The variant FIX client session as an object
// (src/roq/proxy/fix/client/fix/session.cpp): its fields are the session's
// state and each method is proved to move `View()` exactly as the matching
// function of `ClientFixSessionModel` says.

module ClientFixSession {
  import opened Common
  import opened Fix
  import opened SessionRegistry
  import CS = ClientSessionModel
  import opened ClientFixSessionModel

  /** The session's own fields, with the shared registry reached through
    * `shared`. `sent` stands for the connection's outbound byte stream and
    * `upcalls` for the calls made into the controller. */
  class Session {
    const config: CS.Config
    const shared: Shared
    var state: State
    var compId: string
    var username: string
    var partyId: string
    var inbound: nat
    var outbound: nat
    var nextHeartbeat: nat
    var waitingForHeartbeat: bool
    var logonTimeout: nat
    var userResponseTimeout: nat
    var open: bool
    var pending: seq<byte>
    var sent: seq<CS.Outgoing>
    var upcalls: seq<Upcall>

    ghost function View(): Model
      reads this, shared
    {
      Model(state, compId, username, partyId, inbound, outbound, nextHeartbeat, waitingForHeartbeat,
            logonTimeout, userResponseTimeout, open, pending, sent, upcalls, shared.Model())
    }

    ghost predicate Valid()
      reads this, shared
    {
      shared.Valid() && CS.ReaderContract(config.reader) && Inv(View(), config)
    }

    constructor(config: CS.Config, shared: Shared, now: nat)
      requires shared.Valid() && CS.ReaderContract(config.reader) && config.sessionId !in shared.sessionToUser
      ensures this.config == config && this.shared == shared
      ensures View() == Accepted(config, shared.Model(), now)
      ensures Valid()
    {
      this.config := config;
      this.shared := shared;
      state := WaitingLogon;
      compId := "";
      username := "";
      partyId := "";
      inbound := 0;
      outbound := 0;
      nextHeartbeat := 0;
      waitingForHeartbeat := false;
      logonTimeout := now + config.logonTimeout;
      userResponseTimeout := 0;
      open := true;
      pending := [];
      sent := [];
      upcalls := [];
      new;
      AcceptedInv(config, shared.Model(), now);
    }

    // -- utilities

    method Send(body: CS.ToClient)
      modifies this
      ensures View() == AfterSend(old(View()), body)
    {
      outbound := outbound + 1;
      sent := sent + [CS.Outgoing(outbound, compId, body)];
    }

    method MakeZombie()
      requires shared.Valid()
      modifies this, shared
      ensures shared.Valid()
      ensures View() == AfterMakeZombie(old(View()), config)
    {
      match state {
        case WaitingLogon =>
        case WaitingUserResponse => upcalls := upcalls + [Disconnected(config.sessionId, username)];
        case Ready => upcalls := upcalls + [Disconnected(config.sessionId, username)];
        case Zombie => return;
      }
      state := Zombie;
      shared.SessionRemove(config.sessionId);
    }

    method Close()
      requires shared.Valid()
      modifies this, shared
      ensures shared.Valid()
      ensures View() == AfterClose(old(View()), config)
    {
      if state != Zombie {
        open := false;
        MakeZombie();
      }
    }

    method SendAndClose(body: CS.ToClient)
      requires shared.Valid()
      modifies this, shared
      ensures shared.Valid()
      ensures View() == AfterSendAndClose(old(View()), config, body)
    {
      Send(body);
      Close();
    }

    method SendReject(h: Header, text: string)
      requires shared.Valid()
      modifies this, shared
      ensures shared.Valid()
      ensures View() == AfterSendReject(old(View()), config, h, text)
    {
      SendAndClose(CS.SessionReject(h.msgSeqNum, h.msgType, text));
    }

    method SendBusinessMessageReject(h: Header, reason: BusinessRejectReason, text: string)
      requires Valid()
      modifies this
      ensures Valid()
      ensures View() == AfterBusinessReject(old(View()), h, reason, text)
    {
      BusinessRejectKeepsInv(View(), config, h, reason, text);
      Send(CS.BusinessReject(h.msgSeqNum, h.msgType, "", reason, text));
    }

    // -- events from the proxy

    method OnTimer(now: nat)
      requires Valid()
      modifies this, shared
      ensures Valid()
      ensures View() == AfterTimer(old(View()), config, now)
    {
      TimerKeepsInv(View(), config, now);
      match state
      case WaitingLogon =>
        if logonTimeout < now {
          Close();
        }
      case WaitingUserResponse =>
        if userResponseTimeout < now {
          SendAndClose(CS.LogoutMsg(CREATE_ROUTE_TIMEOUT));
        }
      case Ready => Watchdog(now);
      case Zombie =>
    }

    /** The heartbeat watchdog of a READY session. */
    method Watchdog(now: nat)
      requires shared.Valid() && state == Ready
      modifies this, shared
      ensures shared.Valid()
      ensures View() == AfterTimer(old(View()), config, now)
    {
      if nextHeartbeat < now {
        nextHeartbeat := now + config.heartbeatFreq;
        if waitingForHeartbeat {
          SendAndClose(CS.LogoutMsg(MISSING_HEARTBEAT));
        } else {
          Send(CS.TestRequestMsg(CS.ProbeId(now)));
          waitingForHeartbeat := true;
        }
      }
    }

    /** The controller's answer to LOG_ON_USER; `fatal` is the error that
      * ends the process, after which nothing more is said of the session. */
    method OnUserResponse(status: UserStatus) returns (fatal: bool)
      requires Valid()
      modifies this, shared
      ensures fatal <==> AfterUserResponse(old(View()), config, status).None?
      ensures !fatal ==> Valid() && View() == AfterUserResponse(old(View()), config, status).value
    {
      UserResponseKeepsInv(View(), config, status);
      userResponseTimeout := 0;
      if status == LoggedIn {
        if state == WaitingUserResponse {
          Send(CS.LogonReply(CS.HeartBtInt(config)));
          state := Ready;
          return false;
        }
        return true;
      }
      MakeZombie();
      return false;
    }

    /** A response or report from upstream for this client. */
    method OnEvent(e: Event)
      requires Valid() && Relayable(e)
      modifies this
      ensures Valid()
      ensures View() == AfterEvent(old(View()), e)
    {
      EventKeepsInv(View(), config, e);
      if state == Ready {
        Send(CS.Relayed(e));
      }
    }

    method ForceDisconnect()
      requires Valid()
      modifies this, shared
      ensures Valid()
      ensures View() == AfterForceDisconnect(old(View()), config)
    {
      ZombieQueued(View(), config);
      if state != Zombie {
        Close();
      }
    }

    method OnDisconnected()
      requires Valid()
      modifies this, shared
      ensures Valid()
      ensures View() == AfterMakeZombie(old(View()), config)
    {
      ZombieQueued(View(), config);
      MakeZombie();
    }

    // -- messages from the client

    method Check(h: Header) returns (sequencing: CS.Sequencing)
      requires Valid()
      modifies this
      ensures Valid()
      ensures View() == AfterCheck(old(View()), h)
      ensures sequencing == CS.Classify(old(inbound), h.msgSeqNum)
    {
      sequencing := CS.Classify(inbound, h.msgSeqNum);
      inbound := h.msgSeqNum;
    }

    method OnTestRequest(h: Header, testReqId: string)
      requires Valid()
      modifies this, shared
      ensures Valid()
      ensures View() == AfterTestRequest(old(View()), config, h, testReqId)
    {
      TestRequestKeepsInv(View(), config, h, testReqId);
      match state
      case WaitingLogon => SendReject(h, NO_LOGON);
      case WaitingUserResponse => Send(CS.HeartbeatMsg(testReqId));
      case Ready => Send(CS.HeartbeatMsg(testReqId));
      case Zombie =>
    }

    method OnResendRequest(h: Header)
      requires Valid()
      modifies this, shared
      ensures Valid()
      ensures View() == AfterResendRequest(old(View()), config, h)
    {
      ResendRequestKeepsInv(View(), config, h);
      match state
      case WaitingLogon => SendReject(h, NO_LOGON);
      case WaitingUserResponse => SendReject(h, NO_LOGON);
      case Ready => SendBusinessMessageReject(h, UnsupportedMessageType, UNSUPPORTED_MSG_TYPE);
      case Zombie =>
    }

    method OnHeartbeat(h: Header)
      requires Valid()
      modifies this, shared
      ensures Valid()
      ensures View() == AfterHeartbeat(old(View()), config, h)
    {
      HeartbeatKeepsInv(View(), config, h);
      match state
      case WaitingLogon => SendReject(h, NO_LOGON);
      case WaitingUserResponse => SendReject(h, NO_LOGON);
      case Ready => waitingForHeartbeat := false;
      case Zombie =>
    }

    /** A session-level Reject from the client ends the session. */
    method OnReject()
      requires Valid()
      modifies this, shared
      ensures Valid()
      ensures View() == AfterClose(old(View()), config)
    {
      ZombieQueued(View(), config);
      Close();
    }

    method OnLogon(h: Header, user: string, password: string, now: nat, fault: Option<string>)
      requires Valid()
      modifies this, shared
      ensures Valid()
      ensures View() == AfterLogon(old(View()), config, h, user, password, now, fault)
    {
      LogonKeepsInv(View(), config, h, user, password, now, fault);
      match state
      case WaitingLogon => FirstLogon(h, user, password, now, fault);
      case WaitingUserResponse => SendReject(h, UNEXPECTED_LOGON);
      case Ready => SendReject(h, UNEXPECTED_LOGON);
      case Zombie =>
    }

    /** A Logon while waiting for one: adopt the client's CompID, check the
      * target, then the credentials, then ask the controller for the user. */
    method FirstLogon(h: Header, user: string, password: string, now: nat, fault: Option<string>)
      requires Valid() && state == WaitingLogon
      modifies this, shared
      ensures shared.Valid()
      ensures View() == AfterLogon(old(View()), config, h, user, password, now, fault)
    {
      compId := h.senderCompId;
      if h.targetCompId != config.compId {
        SendReject(h, UNKNOWN_TARGET_COMP_ID);
      } else {
        ghost var m1 := View();
        var outcome := shared.SessionLogon(config.sessionId, user, password);
        assert outcome == LogonOutcomeOf(m1.registry, user, password);
        if outcome.LogonFailed? {
          SendReject(h, outcome.reason);
        } else {
          RequestUser(h, user, outcome.strategyId, now, fault);
        }
      }
    }

    /** The credentials were good: the session is READY while it sends the
      * controller LOG_ON_USER, and then waits for the answer. */
    method RequestUser(h: Header, user: string, strategyId: nat, now: nat, fault: Option<string>)
      requires shared.Valid()
      modifies this, shared
      ensures shared.Valid()
      ensures var m2 := old(View());
        var r := NextRequestId(m2.registry);
        var party := Decimal(strategyId);
        var m3 := m2.(state := Ready, username := user, partyId := party, registry := r,
                      upcalls := m2.upcalls + [UserRequest(RequestId(r.nextRequestId), LogOnUser, party, user)]);
        View() == if fault.Some? then AfterSendReject(m3, config, h, fault.value)
                  else m3.(state := WaitingUserResponse, userResponseTimeout := now + config.requestTimeout)
    {
      Announce(user, strategyId);
      if fault.Some? {
        SendReject(h, fault.value);
      } else {
        state := WaitingUserResponse;
        userResponseTimeout := now + config.requestTimeout;
      }
    }

    /** READY as the user, with LOG_ON_USER sent to the controller. */
    method Announce(user: string, strategyId: nat)
      modifies this, shared
      ensures var m2 := old(View());
        var r := NextRequestId(m2.registry);
        var party := Decimal(strategyId);
        View() == m2.(state := Ready, username := user, partyId := party, registry := r,
                      upcalls := m2.upcalls + [UserRequest(RequestId(r.nextRequestId), LogOnUser, party, user)])
    {
      var requestId := shared.CreateRequestId();
      var party := Decimal(strategyId);
      state, username, partyId := Ready, user, party;
      upcalls := upcalls + [UserRequest(requestId, LogOnUser, party, user)];
    }

    method OnLogout(h: Header)
      requires Valid()
      modifies this, shared
      ensures Valid()
      ensures View() == AfterLogout(old(View()), config, h)
    {
      LogoutKeepsInv(View(), config, h);
      match state
      case WaitingLogon => SendReject(h, NO_LOGON);
      case WaitingUserResponse => SendReject(h, NO_LOGON);
      case Ready => LeaveReady(h);
      case Zombie =>
    }

    /** Logout from READY: tell the controller, unbind, say goodbye. */
    method LeaveReady(h: Header)
      requires Valid() && state == Ready
      modifies this, shared
      ensures shared.Valid()
      ensures View() == AfterLogOffUser(old(View()), config, h)
    {
      assert config.sessionId in shared.sessionToUser;
      var requestId := shared.CreateRequestId();
      upcalls := upcalls + [UserRequest(requestId, LogOffUser, partyId, username)];
      var outcome := shared.SessionLogout(config.sessionId);
      if outcome.LoggedOut? {
        username := "";
        SendAndClose(CS.LogoutMsg(GOODBYE));
      } else {
        // the invariant keeps a READY session bound, so the registry cannot
        // refuse
        assert false;
      }
    }

    /** Any business request with a handler of its own. */
    method OnRequest(h: Header, r: Request)
      requires Valid()
      modifies this, shared
      ensures Valid()
      ensures View() == AfterRequest(old(View()), config, h, r)
    {
      RequestKeepsInv(View(), config, h, r);
      if Unsupported(r) {
        SendBusinessMessageReject(h, UnsupportedMessageType, UNEXPECTED_MSG_TYPE);
        return;
      }
      match state
      case WaitingLogon => SendReject(h, NO_LOGON);
      case WaitingUserResponse => SendReject(h, NO_LOGON);
      case Ready =>
        if Stamped(r) {
          var stamped := CS.AddPartyIds(r, partyId);
          if stamped.Some? {
            upcalls := upcalls + [Forward(stamped.value, username)];
          } else {
            SendBusinessMessageReject(h, OtherBusinessReason, UNSUPPORTED_PARTY_IDS);
          }
        } else {
          upcalls := upcalls + [Forward(r, username)];
        }
      case Zombie =>
    }

    method Parse(msg: Message, now: nat, fault: Option<string>)
      requires Valid()
      modifies this, shared
      ensures Valid()
      ensures View() == AfterParse(old(View()), config, msg, now, fault)
    {
      if CS.IsAdministrative(msg.body) {
        ParseAdministrative(msg, now, fault);
      } else {
        ParseApplication(msg);
      }
    }

    method ParseAdministrative(msg: Message, now: nat, fault: Option<string>)
      requires Valid() && CS.IsAdministrative(msg.body)
      modifies this, shared
      ensures Valid()
      ensures View() == AfterAdministrative(old(View()), config, msg, now, fault)
    {
      var h := msg.header;
      match msg.body
      case TestRequestBody(id) => OnTestRequest(h, id);
      case ResendRequestBody => OnResendRequest(h);
      case RejectBody(_) => OnReject();
      case HeartbeatBody(_) => OnHeartbeat(h);
      case LogonBody(u, p) => OnLogon(h, u, p, now, fault);
      case LogoutBody(_) => OnLogout(h);
    }

    method ParseApplication(msg: Message)
      requires Valid() && !CS.IsAdministrative(msg.body)
      modifies this, shared
      ensures Valid()
      ensures View() == AfterApplication(old(View()), config, msg)
    {
      var h := msg.header;
      match msg.body
      case TradingSessionStatusRequestBody(_) => SendBusinessMessageReject(h, UnsupportedMessageType, UNEXPECTED_MSG_TYPE);
      case RequestBody(r) =>
        if r.TradeCaptureReportRequest? {
          SendBusinessMessageReject(h, UnsupportedMessageType, UNEXPECTED_MSG_TYPE);
        } else {
          OnRequest(h, r);
        }
      case EventBody(_) => SendBusinessMessageReject(h, UnsupportedMessageType, UNEXPECTED_MSG_TYPE);
      case UnknownBody(_) => SendBusinessMessageReject(h, UnsupportedMessageType, UNEXPECTED_MSG_TYPE);
    }

    /** Bytes arrived on the connection. */
    method OnRead(incoming: seq<byte>, now: nat, fault: Option<string>)
      requires Valid()
      modifies this, shared
      ensures Valid()
      ensures View() == AfterRead(old(View()), config, incoming, now, fault)
    {
      if state == Zombie {
        return;
      }
      pending := pending + incoming;
      var buf := pending;
      ghost var start := View();
      var total, failed := DrainBuffer(buf, now, fault);
      DrainKeepsInv(start, config, buf, now, fault);
      if failed {
        ZombieQueued(View(), config);
        Close();
      } else {
        pending := buf[total..];
      }
    }

    /** The read loop: frame and handle messages from `buf` until it runs
      * out, a message is incomplete, decoding fails, or the session is a
      * zombie. */
    method DrainBuffer(buf: seq<byte>, now: nat, fault: Option<string>) returns (total: nat, failed: bool)
      requires Valid()
      modifies this, shared
      ensures Valid()
      ensures Drain(old(View()), config, buf, now, fault) == Drained(View(), total, failed)
    {
      total := 0;
      failed := false;
      ghost var goal := Drain(View(), config, buf, now, fault);
      while total < |buf| && state != Zombie
        invariant total <= |buf|
        invariant Valid()
        invariant goal == Resume(View(), config, buf, total, now, fault)
        decreases |buf| - total
      {
        var next, stop, bad := ReadFrame(buf, total, now, fault);
        if stop {
          return total, bad;
        }
        total := next;
      }
      ResumeEnds(View(), config, buf, total, now, fault);
    }

    /** One turn of the read loop: frame the front of `buf[total..]` and
      * either handle the message or stop. */
    method ReadFrame(buf: seq<byte>, total: nat, now: nat, fault: Option<string>)
      returns (next: nat, stop: bool, failed: bool)
      requires Valid() && total < |buf| && state != Zombie
      modifies this, shared
      ensures Valid()
      ensures !stop ==> total < next <= |buf|
      ensures Resume(old(View()), config, buf, total, now, fault) ==
              if stop then Drained(View(), total, failed) else Resume(View(), config, buf, next, now, fault)
    {
      var frame := config.reader(buf[total..]);
      if !frame.Decoded? {
        failed := StopAt(buf, total, now, fault);
        return total, true, failed;
      }
      HandleMessage(buf, total, frame.consumed, frame.message, now, fault);
      return total + frame.consumed, false, false;
    }

    /** The loop stops at a frame that is not a whole message; the header of
      * a message whose body did not decode still counts. */
    method StopAt(buf: seq<byte>, total: nat, now: nat, fault: Option<string>) returns (failed: bool)
      requires Valid() && total < |buf| && state != Zombie && !config.reader(buf[total..]).Decoded?
      modifies this
      ensures Valid()
      ensures Resume(old(View()), config, buf, total, now, fault) == Drained(View(), total, failed)
    {
      var frame := config.reader(buf[total..]);
      ResumeStops(View(), config, buf, total, now, fault);
      if frame.Undecodable? {
        var _ := Check(frame.header);
      }
      return !frame.Incomplete?;
    }

    /** Check and handle one decoded message. */
    method Handle(msg: Message, now: nat, fault: Option<string>)
      requires Valid()
      modifies this, shared
      ensures Valid()
      ensures View() == AfterParse(AfterCheck(old(View()), msg.header), config, msg, now, fault)
    {
      var _ := Check(msg.header);
      Parse(msg, now, fault);
    }

    /** Handle the message `msg`, `n` bytes long, at the front of `buf[total..]`. */
    method HandleMessage(buf: seq<byte>, total: nat, n: nat, msg: Message, now: nat, fault: Option<string>)
      requires Valid() && total < |buf| && state != Zombie && config.reader(buf[total..]) == CS.Decoded(n, msg)
      modifies this, shared
      ensures Valid()
      ensures Advances(old(View()), View(), config, buf, total, total + n, now, fault)
    {
      ResumeDecoded(View(), config, buf, total, n, msg, now, fault);
      Handle(msg, now, fault);
    }
  }
}

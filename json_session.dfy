// The JSON-RPC client session as an object
// (src/roq/proxy/fix/client/json/session.cpp): its fields are the session's
// state, the shared registry is reached through `shared`, and each method is
// proved to move `View()` exactly as the matching function of
// `JsonSessionModel` says while keeping the registry's binding in step with
// the session's state.

module JsonSession {
  import opened Common
  import opened Fix
  import opened Json
  import opened SessionRegistry
  import opened JsonSessionModel
  import Rest

  class Session {
    const sessionId: nat
    /** The configured URL prefix of the REST interface. */
    const urlPrefix: string
    const shared: Shared
    var state: State
    var username: string
    var open: bool
    var sent: seq<Outgoing>
    var upcalls: seq<Upcall>
    var http: seq<Rest.Outcome>

    ghost function View(): Model
      reads this, shared
    {
      Model(state, username, open, sent, upcalls, http, shared.Model())
    }

    ghost predicate Valid()
      reads this, shared
    {
      shared.Valid() && Inv(View(), sessionId)
    }

    constructor(sessionId: nat, urlPrefix: string, shared: Shared)
      requires shared.Valid() && sessionId !in shared.sessionToUser
      ensures this.sessionId == sessionId && this.urlPrefix == urlPrefix && this.shared == shared
      ensures View() == Accepted(shared.Model())
      ensures Valid()
    {
      this.sessionId := sessionId;
      this.urlPrefix := urlPrefix;
      this.shared := shared;
      state := WaitingLogon;
      username := "";
      open := true;
      sent := [];
      upcalls := [];
      http := [];
      new;
      AcceptedInv(shared.Model(), sessionId);
    }

    // -- replies

    method SendJsonRpc(kind: string, message: string, id: Json)
      modifies this
      ensures View() == AfterReply(old(View()), kind, message, id)
    {
      var echo := EchoedId(id);
      if echo.Some? {
        sent := sent + [Reply(ReplyText(kind, message, echo.value))];
      }
    }

    method Close()
      modifies this
      ensures View() == AfterClose(old(View()))
    {
      state := Zombie;
      open := false;
    }

    // -- requests

    /** `logon`; `ok` is false when reading a credential throws, and then
      * nothing has changed. */
    method Logon(params: Json, id: Json) returns (ok: bool)
      requires Valid() && state == WaitingLogon
      modifies this, shared
      ensures Valid()
      ensures ok <==> AfterLogon(old(View()), sessionId, params, id).Some?
      ensures ok ==> View() == AfterLogon(old(View()), sessionId, params, id).value
      ensures !ok ==> View() == old(View())
    {
      var name := GetString(params, "username");
      var password := GetString(params, "password");
      if name.None? || password.None? {
        return false;
      }
      LogonKeepsInv(View(), sessionId, params, id);
      LogonWith(name.value, password.value, id);
      ok := true;
    }

    method LogonWith(name: string, password: string, id: Json)
      requires shared.Valid() && sessionId !in shared.sessionToUser
      modifies this, shared
      ensures shared.Valid()
      ensures View() == AfterCredentials(old(View()), sessionId, name, password, id)
    {
      var outcome := shared.SessionLogon(sessionId, name, password);
      match outcome {
        case LoggedOn(_) =>
          state := Ready;
          username := name;
          SendJsonRpc(RESULT, SUCCESS, id);
        case LogonFailed(reason) =>
          SendJsonRpc(ERROR, reason, id);
      }
    }

    method Logout(id: Json)
      requires Valid() && state == Ready
      modifies this, shared
      ensures Valid()
      ensures View() == AfterLogout(old(View()), sessionId, id)
    {
      LogoutKeepsInv(View(), sessionId, id);
      var outcome := shared.SessionLogout(sessionId);
      match outcome {
        case LoggedOut =>
          if state == Ready {
            state := WaitingLogon;
          }
          username := "";
          SendJsonRpc(RESULT, SUCCESS, id);
        case LogoutFailed(_) =>
          // a READY session is always bound
          assert false;
      }
    }

    /** `dispatch` followed by the reply; `upstreamReady` is false when the
      * controller's call throws NotReady. */
    method DispatchRequest(request: Request, id: Json, upstreamReady: bool)
      modifies this
      ensures View() == AfterDispatch(old(View()), request, id, upstreamReady)
    {
      upcalls := upcalls + [Dispatch(request, username)];
      if upstreamReady {
        SendJsonRpc(RESULT, SUCCESS, id);
      } else {
        SendJsonRpc(ERROR, Error.NOT_READY, id);
      }
    }

    /** `process_jsonrpc`; `ok` is false when an exception escapes, and then
      * nothing has changed. */
    method ProcessJsonRpc(env: Envelope, upstreamReady: bool) returns (ok: bool)
      requires Valid() && state != Zombie
      modifies this, shared
      ensures Valid()
      ensures ok <==> AfterJsonRpc(old(View()), sessionId, env, upstreamReady).Some?
      ensures ok ==> View() == AfterJsonRpc(old(View()), sessionId, env, upstreamReady).value
      ensures !ok ==> View() == old(View())
    {
      JsonRpcKeepsInv(View(), sessionId, env, upstreamReady);
      ok := true;
      if env.name == "logon" {
        if state != Ready {
          ok := Logon(env.params, env.id);
        } else {
          SendJsonRpc(ERROR, Error.ALREADY_LOGGED_ON, env.id);
        }
      } else if state != Ready {
        SendJsonRpc(ERROR, Error.NOT_LOGGED_ON, env.id);
      } else if env.name == "logout" {
        Logout(env.id);
      } else if IsOrderMethod(env.name) {
        var request := OrderRequest(env.name, env.params);
        if request.None? {
          return false;
        }
        DispatchRequest(request.value, env.id, upstreamReady);
      } else {
        SendJsonRpc(ERROR, UNKNOWN_METHOD, env.id);
      }
    }

    // -- events from the websocket server

    /** A text message; `doc` is what the JSON parser made of it. */
    method OnText(doc: Option<Json>, upstreamReady: bool)
      requires Valid()
      modifies this, shared
      ensures Valid()
      ensures View() == AfterText(old(View()), sessionId, doc, upstreamReady)
    {
      if state == Zombie {
        return;
      }
      TextKeepsInv(View(), sessionId, doc, upstreamReady);
      var env := if doc.Some? then ParseEnvelope(doc.value) else None;
      if env.None? {
        Close();
        return;
      }
      var ok := ProcessJsonRpc(env.value, upstreamReady);
      if !ok {
        Close();
      }
    }

    method OnBinary()
      requires Valid()
      modifies this
      ensures Valid()
      ensures View() == AfterBinary(old(View()))
    {
      Close();
    }

    method OnDisconnected()
      requires Valid()
      modifies this, shared
      ensures Valid()
      ensures View() == AfterDisconnected(old(View()), sessionId)
    {
      DisconnectedKeepsInv(View(), sessionId);
      state := Zombie;
      shared.SessionRemove(sessionId);
    }

    /** An HTTP request; `order` is the order in which the shared symbol set
      * is listed. */
    method OnHttpRequest(request: Rest.HttpRequest) returns (order: seq<string>)
      requires Valid()
      modifies this
      ensures Valid()
      ensures |order| == |shared.symbols| && forall c :: c in order <==> c in shared.symbols
      ensures View() == AfterHttpRequest(old(View()), request, urlPrefix, order)
    {
      order := Enumerate(shared.symbols);
      if state != Zombie {
        http := http + [Route(request, urlPrefix, order)];
      }
    }

    // -- events from the upstream FIX session

    /** An upstream event routed to this session; `fatal` when the session
      * has no handling for it, and then nothing has changed. */
    method OnEvent(e: Event) returns (fatal: bool)
      requires Valid() && Deliverable(e)
      modifies this
      ensures Valid()
      ensures fatal <==> AfterEvent(old(View()), e).None?
      ensures !fatal ==> View() == AfterEvent(old(View()), e).value
      ensures fatal ==> View() == old(View())
    {
      fatal := false;
      if e.ExecutionReport? || e.BusinessMessageReject? {
        if state != Zombie {
          sent := sent + [Notification(e)];
        }
      } else if !e.OrderCancelReject? && !e.OrderMassCancelReport? {
        fatal := true;
      }
    }
  }
}

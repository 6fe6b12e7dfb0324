// The simple front end's JSON-RPC session as an object
// (src/simple/json/session.cpp): each method is proved to move `View()`
// exactly as the matching function of `SimpleJsonModel` says. Replies are
// formatted as intended (`SimpleJsonModel.Reply`), not as written.

module SimpleJson {
  import opened Common
  import opened Json
  import opened SimpleJsonModel
  import SimpleShared
  import Rest

  class Session {
    const sessionId: nat
    /** The configured URL prefix of the REST interface. */
    const urlPrefix: string
    const shared: SimpleShared.Shared
    var open: bool
    var sent: seq<string>
    var http: seq<Rest.Outcome>

    ghost function View(): Model
      reads this, shared
    {
      Model(open, sent, http, shared.sessionsToRemove)
    }

    constructor(sessionId: nat, urlPrefix: string, shared: SimpleShared.Shared)
      ensures this.sessionId == sessionId && this.urlPrefix == urlPrefix && this.shared == shared
      ensures View() == Accepted(shared.sessionsToRemove)
    {
      this.sessionId := sessionId;
      this.urlPrefix := urlPrefix;
      this.shared := shared;
      open := true;
      sent := [];
      http := [];
    }

    /** `send_result` / `send_error`: nothing is sent for an id that is
      * neither a string nor an integer. */
    method Send(kind: ReplyKind, message: string, id: Json)
      modifies this
      ensures View() == (match Reply(kind, message, id)
                         case None => old(View())
                         case Some(text) => old(View()).(sent := old(sent) + [text]))
    {
      var reply := Reply(kind, message, id);
      if reply.Some? {
        sent := sent + [reply.value];
      }
    }

    method Close()
      modifies this
      ensures View() == old(View()).(open := false)
    {
      open := false;
    }

    /** A text message; `doc` is what the JSON parser made of it. */
    method OnText(doc: Option<Json>)
      modifies this
      ensures View() == AfterText(old(View()), doc)
    {
      var env := if doc.Some? then ParseEnvelope(doc.value) else None;
      if env.None? {
        Close();
        return;
      }
      var e := env.value;
      if IsOrderMethod(e.name) {
        var symbol := SymbolParam(e.params);
        if symbol.None? {
          Close();
          return;
        }
        Send(Result, symbol.value, e.id);
      } else {
        Send(Error, UNKNOWN_METHOD, e.id);
      }
    }

    method OnBinary()
      modifies this
      ensures View() == AfterBinary(old(View()))
    {
      Close();
    }

    method OnDisconnected()
      modifies shared
      ensures View() == AfterDisconnected(old(View()), sessionId)
    {
      shared.sessionsToRemove := shared.sessionsToRemove + {sessionId};
    }

    /** An HTTP request; `order` is the order in which the shared symbol set
      * is listed. */
    method OnHttpRequest(request: Rest.HttpRequest) returns (order: seq<string>)
      modifies this
      ensures |order| == |shared.symbols| && forall c :: c in order <==> c in shared.symbols
      ensures View() == AfterHttpRequest(old(View()), request, urlPrefix, order)
    {
      order := Enumerate(shared.symbols);
      http := http + [Route(request, urlPrefix, order)];
    }
  }
}

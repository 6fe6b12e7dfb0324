// The upstream FIX session as an object whose handlers update its fields in
// place. Each method is proved to move `View()` exactly as the matching
// function of `ServerSessionModel` says, and to keep `Valid()`.

module ServerSession {
  import opened Common
  import opened Fix
  import opened SessionRegistry
  import CS = ClientSessionModel
  import opened ServerSessionModel

  class Session {
    const config: Config
    const shared: Shared
    var state: State
    var inbound: nat
    var outbound: nat
    var nextHeartbeat: nat
    var exchangeSymbols: map<string, set<string>>
    /** What has been written to the current connection. */
    var sent: seq<Outgoing>
    /** What has been handed to the controller. */
    var upcalls: seq<Upcall>

    ghost function View(): Model
      reads this
    {
      Model(state, inbound, outbound, nextHeartbeat, exchangeSymbols, sent, upcalls)
    }

    ghost predicate Valid()
      reads this
    {
      Inv(View(), shared.patterns)
    }

    constructor(config: Config, shared: Shared)
      ensures this.config == config && this.shared == shared
      ensures View() == ServerSessionModel.Initial && Valid()
    {
      this.config := config;
      this.shared := shared;
      state := Disconnected;
      inbound := 0;
      outbound := 0;
      nextHeartbeat := 0;
      exchangeSymbols := map[];
      sent := [];
      upcalls := [];
    }

    predicate IsReady()
      reads this
      ensures IsReady() <==> Rank(state) == 3
    {
      state == Ready
    }

    /** Write one message with the next MsgSeqNum, whatever the state. */
    method SendInternal(body: ToServer)
      requires Valid()
      modifies this
      ensures View() == AfterSend(old(View()), body) && Valid()
    {
      SendKeepsInv(View(), shared.patterns, body);
      outbound := outbound + 1;
      sent := sent + [Outgoing(outbound, body)];
    }

    /** A client's request: refused with NOT_READY unless READY. */
    method Send(request: Request) returns (notReady: bool)
      requires Valid() && Accepts(config.variant, request)
      modifies this
      ensures notReady <==> SendExternal(old(View()), request).None?
      ensures notReady ==> View() == old(View())
      ensures !notReady ==> View() == SendExternal(old(View()), request).value
      ensures Valid()
    {
      if !IsReady() {
        return true;
      }
      SendInternal(RequestMsg(request));
      return false;
    }

    method OnConnected()
      requires Valid()
      modifies this
      ensures View() == AfterConnected(old(View()), config) && Valid()
    {
      SendInternal(LogonMsg(HeartBtInt(config), true, inbound + 1, config.username, config.password));
      state := LogonSent;
    }

    method OnDisconnected()
      requires Valid()
      modifies this
      ensures View() == AfterDisconnected(old(View())) && Valid()
    {
      outbound := 0;
      inbound := 0;
      nextHeartbeat := 0;
      exchangeSymbols := map[];
      sent := [];
      state := Disconnected;
    }

    method OnTimer(now: nat)
      requires Valid()
      modifies this
      ensures View() == AfterTimer(old(View()), config, now) && Valid()
    {
      if Rank(state) <= Rank(LogonSent) {
        return;
      }
      if nextHeartbeat <= now {
        nextHeartbeat := now + config.pingFreq;
        SendInternal(TestRequestMsg(Decimal(now)));
      }
    }

    method Check(header: Header)
      requires Valid()
      modifies this
      ensures View() == AfterCheck(old(View()), header) && Valid()
    {
      inbound := header.msgSeqNum;
    }

    /** Record each listed instrument that passes the filter and request its
      * definition (and market data, if configured); then READY. */
    method OnSecurityList(items: seq<Instrument>)
      requires Valid()
      modifies this
      ensures View() == AfterSecurityList(old(View()), config, shared.patterns, items) && Valid()
    {
      var i := 0;
      while i < |items|
        invariant i <= |items| && Valid()
        invariant View() == AfterItems(old(View()), config, shared.patterns, items[..i])
      {
        var item := items[i];
        assert items[..i + 1][..i] == items[..i];
        ItemKeepsInv(View(), config, shared.patterns, item);
        var found := shared.Include(item.symbol);
        if found {
          exchangeSymbols := AddSymbol(exchangeSymbols, item.exchange, item.symbol);
          SendInternal(DefinitionRequest(item));
          if RequestsMarketData(config.variant) {
            SendInternal(MarketDataRequestFor(config, item));
          }
        }
        i := i + 1;
      }
      assert items[..i] == items;
      state := Ready;
    }

    method OnEvent(event: Event)
      requires Valid()
      modifies this
      ensures View() == AfterEvent(old(View()), config, shared.patterns, event) && Valid()
    {
      if event.SecurityList? {
        OnSecurityList(event.instruments);
        return;
      }
      var relay := Relay(config, event);
      if relay.Some? {
        upcalls := upcalls + [relay.value];
      }
    }

    method Parse(msg: Message)
      requires Valid()
      modifies this
      ensures View() == AfterParse(old(View()), config, shared.patterns, msg) && Valid()
    {
      match msg.body {
        case LogonBody(_, _) =>
          SendInternal(RequestMsg(SecurityListRequest(TEST_REQ_ID)));
          state := GetSecurityList;
        case TestRequestBody(id) =>
          SendInternal(HeartbeatMsg(id));
        case EventBody(e) =>
          OnEvent(e);
        case _ =>
      }
    }

    /** One framed message: adopt its sequence number, then handle it. */
    method HandleMessage(buf: seq<byte>, total: nat, n: nat, msg: Message)
      requires Valid() && CS.ReaderContract(config.reader)
      requires total < |buf| && config.reader(buf[total..]) == CS.Decoded(n, msg)
      modifies this
      ensures Valid() && total < total + n <= |buf|
      ensures Resume(old(View()), config, shared.patterns, buf, total) ==
              Resume(View(), config, shared.patterns, buf, total + n)
    {
      MessageKeepsInv(View(), config, shared.patterns, msg);
      Check(msg.header);
      Parse(msg);
    }

    /** Bytes from the gateway: handle every whole message at the front of
      * `buf` and report how much to drain. A decoding error escapes, so then
      * nothing is drained. */
    method OnRead(buf: seq<byte>) returns (drained: nat, failed: bool)
      requires Valid() && CS.ReaderContract(config.reader)
      modifies this
      ensures var d := Resume(old(View()), config, shared.patterns, buf, 0);
        View() == d.model && failed == d.failed && drained == (if d.failed then 0 else d.consumed)
      ensures Valid()
    {
      ghost var goal := Resume(View(), config, shared.patterns, buf, 0);
      var total := 0;
      while total < |buf|
        invariant total <= |buf| && Valid()
        invariant goal == Resume(View(), config, shared.patterns, buf, total)
        decreases |buf| - total
      {
        var frame := config.reader(buf[total..]);
        match frame {
          case Incomplete =>
            return total, false;
          case Malformed =>
            return 0, true;
          case Undecodable(h) =>
            Check(h);
            return 0, true;
          case Decoded(n, msg) =>
            HandleMessage(buf, total, n, msg);
            total := total + n;
        }
      }
      return total, false;
    }
  }
}

// The proxy's own FIX connection to the upstream gateway
// (src/roq/proxy/fix/server/session.cpp and its older twin
// src/roq/fix_proxy/server/session.cpp, which differ only where `Variant`
// says).
//
// The session logs on as soon as the connection manager reports a
// connection, downloads the security list once the gateway accepts the logon,
// records the listed symbols that pass the proxy's symbol filter per exchange
// and is then READY to carry the clients' requests. The value type `Model`
// is its state plus what it has emitted: the messages written to the current
// connection (`sent`) and the events handed to the controller (`upcalls`).
// The class `ServerSession.Session` holds the same state in fields and each
// of its methods is proved to move `View()` as the matching function here
// says.

module ServerSessionModel {
  import opened Common
  import opened Fix
  import opened SessionRegistry
  import CS = ClientSessionModel

  /** The SecurityReqID / MDReqID the session uses for its own requests. */
  const TEST_REQ_ID: string := "test"

  /** The order of the states matters: the heartbeat timer is idle up to and
    * including LOGON_SENT. */
  datatype State = Disconnected | LogonSent | GetSecurityList | Ready

  function Rank(s: State): (r: nat)
    ensures r <= 3
    ensures r == 0 <==> s == Disconnected
    ensures r == 3 <==> s == Ready
  {
    match s
    case Disconnected => 0
    case LogonSent => 1
    case GetSecurityList => 2
    case Ready => 3
  }

  /** The two generations of the session: the current one requests market data
    * only when enabled and relays market data to the controller; the legacy
    * one requests it unless disabled and drops it. */
  datatype Variant = Current(enableMarketData: bool) | Legacy(disableMarketData: bool)

  function RequestsMarketData(v: Variant): bool
  {
    match v
    case Current(enable) => enable
    case Legacy(disable) => !disable
  }

  /** Settings; `pingFreq` is in nanoseconds and `reader` is the FIX framing
    * and decoding. */
  datatype Config = Config(
    username: string,
    password: string,
    pingFreq: nat,
    marketDepth: nat,
    variant: Variant,
    reader: seq<byte> -> CS.Frame)

  /** HeartBtInt in whole seconds, truncated to the 16 bits of the field. */
  function HeartBtInt(cfg: Config): (r: nat)
    ensures r < 0x1_0000
  {
    (cfg.pingFreq / CS.NANOS_PER_SECOND) % 0x1_0000
  }

  /** Messages the session writes to the gateway. */
  datatype ToServer =
    | LogonMsg(heartBtInt: nat, resetSeqNumFlag: bool, nextExpectedMsgSeqNum: nat, username: string, password: string)
    | HeartbeatMsg(testReqId: string)
    | TestRequestMsg(testReqId: string)
    | RequestMsg(request: Request)

  /** A message as it goes out: MsgSeqNum and body. */
  datatype Outgoing = Outgoing(seqNum: nat, body: ToServer)

  /** An event handed to the controller, with the session's username except
    * for security definitions, which are not tied to a user. */
  datatype Upcall = ToHandler(event: Event, username: Option<string>)

  datatype Model = Model(
    state: State,
    inbound: nat,
    outbound: nat,
    nextHeartbeat: nat,
    exchangeSymbols: map<string, set<string>>,
    sent: seq<Outgoing>,
    upcalls: seq<Upcall>)

  const Initial: Model := Model(Disconnected, 0, 0, 0, map[], [], [])

  // ---------------------------------------------------------------------------
  // Sending

  /** Every message takes the next outbound MsgSeqNum. */
  function AfterSend(m: Model, body: ToServer): Model
  {
    m.(outbound := m.outbound + 1, sent := m.sent + [Outgoing(m.outbound + 1, body)])
  }

  /** A client's request is written only when the session is READY; otherwise
    * the caller gets NOT_READY and nothing changes. */
  function SendExternal(m: Model, r: Request): (res: Option<Model>)
  {
    if m.state == Ready then Some(AfterSend(m, RequestMsg(r))) else None
  }

  /** The client requests each generation accepts (the legacy one has no
    * entry point for market data requests). */
  predicate Accepts(v: Variant, r: Request)
  {
    r.OrderStatusRequest? || r.NewOrderSingle? || r.OrderCancelReplaceRequest? || r.OrderCancelRequest? ||
    r.OrderMassStatusRequest? || r.OrderMassCancelRequest? || (v.Current? && r.MarketDataRequest?)
  }

  // ---------------------------------------------------------------------------
  // Connection events

  /** Log on with a sequence reset, asking for the message after the last one
    * received. */
  function AfterConnected(m: Model, cfg: Config): Model
  {
    AfterSend(m, LogonMsg(HeartBtInt(cfg), true, m.inbound + 1, cfg.username, cfg.password)).(state := LogonSent)
  }

  /** Forget the connection: counters, heartbeat deadline, symbol table and
    * what was written to it. */
  function AfterDisconnected(m: Model): Model
  {
    m.(state := Disconnected, inbound := 0, outbound := 0, nextHeartbeat := 0, exchangeSymbols := map[], sent := [])
  }

  /** Once past LOGON_SENT, send a TestRequest whenever the deadline has come
    * and move the deadline one ping interval past `now`. */
  function AfterTimer(m: Model, cfg: Config, now: nat): Model
  {
    if Rank(m.state) <= Rank(LogonSent) then m
    else if m.nextHeartbeat <= now then AfterSend(m.(nextHeartbeat := now + cfg.pingFreq), TestRequestMsg(Decimal(now)))
    else m
  }

  // ---------------------------------------------------------------------------
  // Inbound messages

  /** The received MsgSeqNum is adopted as it is; gaps and replays are only
    * logged. */
  function AfterCheck(m: Model, h: Header): Model
  {
    m.(inbound := h.msgSeqNum)
  }

  function AfterUpcall(m: Model, e: Event, username: Option<string>): Model
  {
    m.(upcalls := m.upcalls + [ToHandler(e, username)])
  }

  /** `symbol` is listed under `exchange`. */
  predicate Lists(table: map<string, set<string>>, exchange: string, symbol: string)
  {
    exchange in table && symbol in table[exchange]
  }

  function AddSymbol(table: map<string, set<string>>, exchange: string, symbol: string): map<string, set<string>>
  {
    table[exchange := (if exchange in table then table[exchange] else {}) + {symbol}]
  }

  /** The definition request for one listed instrument. */
  function DefinitionRequest(item: Instrument): ToServer
  {
    RequestMsg(SecurityDefinitionRequest(TEST_REQ_ID, item))
  }

  /** The market data subscription for one listed instrument: snapshot and
    * incremental updates at the configured depth. */
  function MarketDataRequestFor(cfg: Config, item: Instrument): ToServer
  {
    RequestMsg(MarketDataRequest(TEST_REQ_ID, SnapshotAndUpdates, cfg.marketDepth, [item]))
  }

  /** One SecurityList entry: an instrument that passes the filter is
    * recorded and its definition (and, if configured, its market data) is
    * requested. */
  function AfterItem(m: Model, cfg: Config, patterns: seq<string -> bool>, item: Instrument): Model
  {
    if !Included(patterns, item.symbol) then m
    else
      var m1 := AfterSend(m.(exchangeSymbols := AddSymbol(m.exchangeSymbols, item.exchange, item.symbol)),
                          DefinitionRequest(item));
      if RequestsMarketData(cfg.variant) then
        AfterSend(m1, MarketDataRequestFor(cfg, item))
      else m1
  }

  /** The entries of a SecurityList, first to last. */
  function AfterItems(m: Model, cfg: Config, patterns: seq<string -> bool>, items: seq<Instrument>): Model
    decreases |items|
  {
    if items == [] then m
    else AfterItem(AfterItems(m, cfg, patterns, items[..|items| - 1]), cfg, patterns, items[|items| - 1])
  }

  function AfterSecurityList(m: Model, cfg: Config, patterns: seq<string -> bool>, items: seq<Instrument>): Model
  {
    AfterItems(m, cfg, patterns, items).(state := Ready)
  }

  /** Events the session hands to the controller, and under which username. */
  function Relay(cfg: Config, e: Event): Option<Upcall>
  {
    match e
    case BusinessMessageReject(_, _, _, _, _) => Some(ToHandler(e, Some(cfg.username)))
    case SecurityDefinition(_, _) => Some(ToHandler(e, None))
    case MarketDataRequestReject(_, _) =>
      if cfg.variant.Current? then Some(ToHandler(e, Some(cfg.username))) else None
    case MarketDataSnapshotFullRefresh(_, _, _) =>
      if cfg.variant.Current? then Some(ToHandler(e, Some(cfg.username))) else None
    case MarketDataIncrementalRefresh(_, _) =>
      if cfg.variant.Current? then Some(ToHandler(e, Some(cfg.username))) else None
    case OrderCancelReject(_, _) => Some(ToHandler(e, Some(cfg.username)))
    case ExecutionReport(_, _) => Some(ToHandler(e, Some(cfg.username)))
    case _ => None
  }

  /** One decoded application event. */
  function AfterEvent(m: Model, cfg: Config, patterns: seq<string -> bool>, e: Event): Model
  {
    if e.SecurityList? then AfterSecurityList(m, cfg, patterns, e.instruments)
    else
      match Relay(cfg, e)
      case Some(u) => m.(upcalls := m.upcalls + [u])
      case None => m
  }

  /** Dispatch on the message type. A Logout is decoded as a Heartbeat and so
    * ends up in the heartbeat handler, which only logs; rejects, resend
    * requests and unexpected types are only logged too. */
  function AfterParse(m: Model, cfg: Config, patterns: seq<string -> bool>, msg: Message): Model
  {
    match msg.body
    case LogonBody(_, _) => AfterSend(m, RequestMsg(SecurityListRequest(TEST_REQ_ID))).(state := GetSecurityList)
    case TestRequestBody(id) => AfterSend(m, HeartbeatMsg(id))
    case EventBody(e) => AfterEvent(m, cfg, patterns, e)
    case _ => m
  }

  function AfterMessage(m: Model, cfg: Config, patterns: seq<string -> bool>, msg: Message): Model
  {
    AfterParse(AfterCheck(m, msg.header), cfg, patterns, msg)
  }

  /** Where reading stopped: the model after the handled messages, the offset
    * reached, and whether a decoding error escaped. */
  datatype Drained = Drained(model: Model, consumed: nat, failed: bool)

  /** Handle the messages framed from `buf` starting at offset `total`, until
    * the buffer is used up, a message is incomplete, or decoding throws
    * (after the header's MsgSeqNum was adopted when the header decoded). */
  function Resume(m: Model, cfg: Config, patterns: seq<string -> bool>, buf: seq<byte>, total: nat): (d: Drained)
    requires CS.ReaderContract(cfg.reader) && total <= |buf|
    ensures total <= d.consumed <= |buf|
    decreases |buf| - total
  {
    if total == |buf| then Drained(m, total, false)
    else
      match cfg.reader(buf[total..])
      case Incomplete => Drained(m, total, false)
      case Malformed => Drained(m, total, true)
      case Undecodable(h) => Drained(AfterCheck(m, h), total, true)
      case Decoded(n, msg) => Resume(AfterMessage(m, cfg, patterns, msg), cfg, patterns, buf, total + n)
  }

  // ---------------------------------------------------------------------------
  // Invariant

  /** The messages written to the current connection carry MsgSeqNums
    * 1, 2, 3, ... in order. */
  ghost predicate Numbered(sent: seq<Outgoing>, outbound: nat)
  {
    |sent| == outbound && forall i :: 0 <= i < |sent| ==> sent[i].seqNum == i + 1
  }

  /** Only symbols that pass the filter are ever recorded, and an exchange is
    * present only with at least one symbol. */
  ghost predicate Filtered(table: map<string, set<string>>, patterns: seq<string -> bool>)
  {
    forall e :: e in table ==> table[e] != {} && forall s :: s in table[e] ==> Included(patterns, s)
  }

  ghost predicate Inv(m: Model, patterns: seq<string -> bool>)
  {
    Numbered(m.sent, m.outbound) && Filtered(m.exchangeSymbols, patterns)
  }

  // ---------------------------------------------------------------------------
  // Properties

  lemma InitialInv(patterns: seq<string -> bool>)
    ensures Inv(Initial, patterns) && Initial.state == Disconnected
  {
  }

  lemma SendKeepsInv(m: Model, patterns: seq<string -> bool>, body: ToServer)
    requires Inv(m, patterns)
    ensures Inv(AfterSend(m, body), patterns)
    ensures AfterSend(m, body).sent[|m.sent|] == Outgoing(|m.sent| + 1, body)
  {
  }

  /** A client request goes out, with the next MsgSeqNum, exactly when the
    * session is READY; otherwise nothing changes. */
  lemma SendExternalGated(m: Model, patterns: seq<string -> bool>, r: Request)
    requires Inv(m, patterns)
    ensures SendExternal(m, r).Some? <==> m.state == Ready
    ensures SendExternal(m, r).Some? ==>
      var m' := SendExternal(m, r).value;
      Inv(m', patterns) && m'.sent == m.sent + [Outgoing(m.outbound + 1, RequestMsg(r))] &&
      m'.state == m.state && m'.exchangeSymbols == m.exchangeSymbols && m'.upcalls == m.upcalls
  {
  }

  /** On connecting, the first message is a Logon that resets sequence
    * numbers and asks for the message after the last one received. */
  lemma ConnectedLogsOn(m: Model, cfg: Config, patterns: seq<string -> bool>)
    requires Inv(m, patterns)
    ensures var m' := AfterConnected(m, cfg);
      Inv(m', patterns) && m'.state == LogonSent &&
      m'.sent == m.sent + [Outgoing(m.outbound + 1, LogonMsg(HeartBtInt(cfg), true, m.inbound + 1, cfg.username, cfg.password))]
  {
  }

  /** Losing the connection resets everything tied to it. */
  lemma DisconnectedResets(m: Model, patterns: seq<string -> bool>)
    ensures var m' := AfterDisconnected(m);
      Inv(m', patterns) && m'.state == Disconnected && m'.inbound == 0 && m'.outbound == 0 &&
      m'.nextHeartbeat == 0 && (forall e, s :: !Lists(m'.exchangeSymbols, e, s)) && m'.upcalls == m.upcalls
  {
  }

  /** After a reconnect the Logon is message 1 and asks for message 1,
    * whatever happened on the previous connection. */
  lemma ReconnectStartsOver(m: Model, cfg: Config, patterns: seq<string -> bool>)
    ensures var m' := AfterConnected(AfterDisconnected(m), cfg);
      Inv(m', patterns) && m'.sent == [Outgoing(1, LogonMsg(HeartBtInt(cfg), true, 1, cfg.username, cfg.password))]
  {
  }

  /** The timer never sends anything while the session is DISCONNECTED or
    * waiting for the logon reply. */
  lemma TimerIdleUntilLoggedOn(m: Model, cfg: Config, now: nat)
    requires m.state == Disconnected || m.state == LogonSent
    ensures AfterTimer(m, cfg, now) == m
  {
  }

  /** Past LOGON_SENT, a TestRequest named after `now` goes out exactly when
    * the deadline has come, and then the next deadline is a ping interval
    * after `now`. */
  lemma TimerProbes(m: Model, cfg: Config, patterns: seq<string -> bool>, now: nat)
    requires Inv(m, patterns) && (m.state == GetSecurityList || m.state == Ready)
    ensures var m' := AfterTimer(m, cfg, now);
      Inv(m', patterns) && m'.state == m.state &&
      (m.nextHeartbeat <= now ==>
         m'.nextHeartbeat == now + cfg.pingFreq &&
         m'.sent == m.sent + [Outgoing(m.outbound + 1, TestRequestMsg(Decimal(now)))]) &&
      (now < m.nextHeartbeat ==> m' == m)
  {
  }

  /** Whatever sequence number arrives is adopted. */
  lemma CheckAdopts(m: Model, h: Header)
    ensures AfterCheck(m, h).inbound == h.msgSeqNum
    ensures AfterCheck(m, h).(inbound := m.inbound) == m
  {
  }

  /** The gateway's Logon reply starts the security list download. */
  lemma LogonDownloadsSecurityList(m: Model, cfg: Config, patterns: seq<string -> bool>, msg: Message)
    requires Inv(m, patterns) && msg.body.LogonBody?
    ensures var m' := AfterMessage(m, cfg, patterns, msg);
      Inv(m', patterns) && m'.state == GetSecurityList && m'.inbound == msg.header.msgSeqNum &&
      m'.sent == m.sent + [Outgoing(m.outbound + 1, RequestMsg(SecurityListRequest(TEST_REQ_ID)))]
  {
  }

  /** A TestRequest is answered with a Heartbeat carrying its TestReqID. */
  lemma TestRequestAnswered(m: Model, cfg: Config, patterns: seq<string -> bool>, msg: Message)
    requires Inv(m, patterns) && msg.body.TestRequestBody?
    ensures var m' := AfterMessage(m, cfg, patterns, msg);
      Inv(m', patterns) && m'.state == m.state &&
      m'.sent == m.sent + [Outgoing(m.outbound + 1, HeartbeatMsg(msg.body.testReqId))]
  {
  }

  /** A Logout from the gateway is treated as a Heartbeat: nothing is
    * answered, the connection stays up, only the sequence number is taken. */
  lemma LogoutIgnored(m: Model, cfg: Config, patterns: seq<string -> bool>, msg: Message)
    requires msg.body.LogoutBody?
    ensures AfterMessage(m, cfg, patterns, msg) == m.(inbound := msg.header.msgSeqNum)
  {
  }

  /** An event reaches the controller exactly when this generation relays
    * it: business rejects, order cancel rejects and execution reports under
    * the session's username, security definitions without one, and market
    * data (under the username) only in the current generation. */
  lemma EventsRelayed(m: Model, cfg: Config, patterns: seq<string -> bool>, e: Event)
    requires !e.SecurityList?
    ensures var m' := AfterEvent(m, cfg, patterns, e);
      m'.state == m.state && m'.sent == m.sent && m'.exchangeSymbols == m.exchangeSymbols &&
      (|m'.upcalls| == |m.upcalls| + 1 <==>
         e.BusinessMessageReject? || e.SecurityDefinition? || e.OrderCancelReject? || e.ExecutionReport? ||
         (cfg.variant.Current? && (e.MarketDataRequestReject? || e.MarketDataSnapshotFullRefresh? ||
                                   e.MarketDataIncrementalRefresh?))) &&
      (|m'.upcalls| != |m.upcalls| + 1 ==> m' == m) &&
      (|m'.upcalls| == |m.upcalls| + 1 ==>
         m'.upcalls == m.upcalls + [ToHandler(e, if e.SecurityDefinition? then None else Some(cfg.username))])
  {
  }

  /** One entry keeps the invariant and, for an included symbol, adds exactly
    * that symbol under its exchange. */
  lemma ItemKeepsInv(m: Model, cfg: Config, patterns: seq<string -> bool>, item: Instrument)
    requires Inv(m, patterns)
    ensures var m' := AfterItem(m, cfg, patterns, item);
      Inv(m', patterns) && m'.state == m.state && m'.upcalls == m.upcalls &&
      forall e, s :: Lists(m'.exchangeSymbols, e, s) <==>
        Lists(m.exchangeSymbols, e, s) || (item == Instrument(e, s) && Included(patterns, s))
  {
    if Included(patterns, item.symbol) {
      var t := AddSymbol(m.exchangeSymbols, item.exchange, item.symbol);
      assert Filtered(t, patterns) by {
        forall e | e in t
          ensures t[e] != {} && forall s :: s in t[e] ==> Included(patterns, s)
        {
          if e == item.exchange {
            assert item.symbol in t[e];
          }
        }
      }
    }
  }

  /** Some entry of `items` is the instrument (exchange, symbol) and passes
    * the filter. */
  ghost predicate Listed(items: seq<Instrument>, patterns: seq<string -> bool>, exchange: string, symbol: string)
  {
    exists k :: 0 <= k < |items| && items[k] == Instrument(exchange, symbol) && Included(patterns, symbol)
  }

  /** After a SecurityList, the symbol table holds what it held before plus
    * exactly the listed instruments that pass the filter, and the session is
    * READY. */
  lemma {:induction false} SecurityListRecords(m: Model, cfg: Config, patterns: seq<string -> bool>, items: seq<Instrument>)
    requires Inv(m, patterns)
    ensures var m' := AfterItems(m, cfg, patterns, items);
      Inv(m', patterns) && m'.state == m.state && m'.upcalls == m.upcalls &&
      forall e, s :: Lists(m'.exchangeSymbols, e, s) <==> Lists(m.exchangeSymbols, e, s) || Listed(items, patterns, e, s)
    ensures AfterSecurityList(m, cfg, patterns, items).state == Ready
    decreases |items|
  {
    if items != [] {
      var init := items[..|items| - 1];
      var last := items[|items| - 1];
      SecurityListRecords(m, cfg, patterns, init);
      var mi := AfterItems(m, cfg, patterns, init);
      ItemKeepsInv(mi, cfg, patterns, last);
      var m' := AfterItem(mi, cfg, patterns, last);
      forall e, s
        ensures Lists(m'.exchangeSymbols, e, s) <==> Lists(m.exchangeSymbols, e, s) || Listed(items, patterns, e, s)
      {
        if Listed(items, patterns, e, s) && !Listed(init, patterns, e, s) {
          var k :| 0 <= k < |items| && items[k] == Instrument(e, s) && Included(patterns, s);
          assert k == |items| - 1;
        }
        if Listed(init, patterns, e, s) {
          var k :| 0 <= k < |init| && init[k] == Instrument(e, s) && Included(patterns, s);
          assert items[k] == init[k];
        }
        if last == Instrument(e, s) && Included(patterns, s) {
          assert items[|items| - 1] == last;
        }
      }
    }
  }

  /** Some message written since index `from` has this body. */
  ghost predicate SentSince(sent: seq<Outgoing>, from: nat, body: ToServer)
  {
    exists k :: from <= k < |sent| && sent[k].body == body
  }

  /** One entry writes, after what was there, a SecurityDefinitionRequest for
    * an included instrument (followed by a MarketDataRequest if configured)
    * and nothing for an excluded one. */
  lemma ItemRequests(m: Model, cfg: Config, patterns: seq<string -> bool>, item: Instrument)
    ensures var m' := AfterItem(m, cfg, patterns, item);
      |m.sent| <= |m'.sent| && m'.sent[..|m.sent|] == m.sent &&
      (Included(patterns, item.symbol) <==> |m'.sent| > |m.sent|) &&
      (Included(patterns, item.symbol) ==>
         m'.sent[|m.sent|].body == DefinitionRequest(item) &&
         (RequestsMarketData(cfg.variant) ==>
            m'.sent[|m.sent| + 1].body ==
            MarketDataRequestFor(cfg, item))) &&
      forall k :: |m.sent| <= k < |m'.sent| ==>
        m'.sent[k].body == DefinitionRequest(item) ||
        (RequestsMarketData(cfg.variant) &&
         m'.sent[k].body == MarketDataRequestFor(cfg, item))
  {
  }

  /** `body` is the definition request, or the market data request if this
    * generation asks for market data, of a listed instrument that passes the
    * filter. */
  ghost predicate RequestedFor(body: ToServer, cfg: Config, patterns: seq<string -> bool>, items: seq<Instrument>)
  {
    exists j :: 0 <= j < |items| && Included(patterns, items[j].symbol) &&
      (body == DefinitionRequest(items[j]) || (RequestsMarketData(cfg.variant) && body == MarketDataRequestFor(cfg, items[j])))
  }

  /** What a whole SecurityList writes: a SecurityDefinitionRequest for every
    * listed instrument that passes the filter, a MarketDataRequest for each
    * of them when this generation asks for market data, and nothing else. */
  lemma {:induction false} SecurityListRequests(m: Model, cfg: Config, patterns: seq<string -> bool>, items: seq<Instrument>)
    ensures var m' := AfterItems(m, cfg, patterns, items);
      |m.sent| <= |m'.sent| && m'.sent[..|m.sent|] == m.sent &&
      (forall k :: 0 <= k < |items| && Included(patterns, items[k].symbol) ==>
         SentSince(m'.sent, |m.sent|, DefinitionRequest(items[k])) &&
         (RequestsMarketData(cfg.variant) ==>
            SentSince(m'.sent, |m.sent|,
                      MarketDataRequestFor(cfg, items[k])))) &&
      (forall k :: |m.sent| <= k < |m'.sent| ==> RequestedFor(m'.sent[k].body, cfg, patterns, items))
    decreases |items|
  {
    if items != [] {
      var init := items[..|items| - 1];
      var last := items[|items| - 1];
      SecurityListRequests(m, cfg, patterns, init);
      var mi := AfterItems(m, cfg, patterns, init);
      ItemRequests(mi, cfg, patterns, last);
      var m' := AfterItem(mi, cfg, patterns, last);
      forall k | 0 <= k < |items| && Included(patterns, items[k].symbol)
        ensures SentSince(m'.sent, |m.sent|, DefinitionRequest(items[k]))
        ensures RequestsMarketData(cfg.variant) ==> SentSince(m'.sent, |m.sent|, MarketDataRequestFor(cfg, items[k]))
      {
        if k < |items| - 1 {
          assert init[k] == items[k];
          var j :| |m.sent| <= j < |mi.sent| && mi.sent[j].body == DefinitionRequest(items[k]);
          assert m'.sent[j] == mi.sent[j];
          if RequestsMarketData(cfg.variant) {
            var j' :| |m.sent| <= j' < |mi.sent| && mi.sent[j'].body == MarketDataRequestFor(cfg, items[k]);
            assert m'.sent[j'] == mi.sent[j'];
          }
        } else {
          assert m'.sent[|mi.sent|].body == DefinitionRequest(items[k]);
          if RequestsMarketData(cfg.variant) {
            assert m'.sent[|mi.sent| + 1].body == MarketDataRequestFor(cfg, items[k]);
          }
        }
      }
      forall k | |m.sent| <= k < |m'.sent|
        ensures RequestedFor(m'.sent[k].body, cfg, patterns, items)
      {
        if k < |mi.sent| {
          assert m'.sent[k] == mi.sent[k];
          assert RequestedFor(mi.sent[k].body, cfg, patterns, init);
          var j :| 0 <= j < |init| && Included(patterns, init[j].symbol) &&
            (mi.sent[k].body == DefinitionRequest(init[j]) ||
             (RequestsMarketData(cfg.variant) && mi.sent[k].body == MarketDataRequestFor(cfg, init[j])));
          assert items[j] == init[j];
        } else {
          assert items[|items| - 1] == last;
        }
      }
    }
  }

  /** Every inbound message keeps the invariant. */
  lemma MessageKeepsInv(m: Model, cfg: Config, patterns: seq<string -> bool>, msg: Message)
    requires Inv(m, patterns)
    ensures Inv(AfterMessage(m, cfg, patterns, msg), patterns)
  {
    var m1 := AfterCheck(m, msg.header);
    if msg.body.EventBody? && msg.body.event.SecurityList? {
      SecurityListRecords(m1, cfg, patterns, msg.body.event.instruments);
    }
  }

  /** Reading keeps the invariant, whatever the gateway sent. */
  lemma {:induction false} ResumeKeepsInv(m: Model, cfg: Config, patterns: seq<string -> bool>, buf: seq<byte>, total: nat)
    requires CS.ReaderContract(cfg.reader) && total <= |buf| && Inv(m, patterns)
    ensures Inv(Resume(m, cfg, patterns, buf, total).model, patterns)
    decreases |buf| - total
  {
    if total < |buf| {
      match cfg.reader(buf[total..])
      case Incomplete =>
      case Malformed =>
      case Undecodable(h) =>
      case Decoded(n, msg) =>
        MessageKeepsInv(m, cfg, patterns, msg);
        ResumeKeepsInv(AfterMessage(m, cfg, patterns, msg), cfg, patterns, buf, total + n);
    }
  }

  /** One handshake on a fresh connection: after Connected, the gateway's
    * Logon and a SecurityList, the session is READY, its first two messages
    * are the Logon and the SecurityListRequest, numbered 1 and 2, and the
    * symbol table holds exactly the listed instruments that pass the
    * filter. */
  lemma Handshake(m: Model, cfg: Config, patterns: seq<string -> bool>, logon: Message, list: Message)
    requires Inv(m, patterns) && logon.body.LogonBody? && list.body.EventBody? && list.body.event.SecurityList?
    ensures var m' := AfterMessage(AfterMessage(AfterConnected(AfterDisconnected(m), cfg), cfg, patterns, logon),
                                   cfg, patterns, list);
      Inv(m', patterns) && m'.state == Ready && |m'.sent| >= 2 &&
      m'.sent[0] == Outgoing(1, LogonMsg(HeartBtInt(cfg), true, 1, cfg.username, cfg.password)) &&
      m'.sent[1] == Outgoing(2, RequestMsg(SecurityListRequest(TEST_REQ_ID))) &&
      forall e, s :: Lists(m'.exchangeSymbols, e, s) <==> Listed(list.body.event.instruments, patterns, e, s)
  {
    var m0 := AfterConnected(AfterDisconnected(m), cfg);
    LogonDownloadsSecurityList(m0, cfg, patterns, logon);
    var m1 := AfterMessage(m0, cfg, patterns, logon);
    var m2 := AfterCheck(m1, list.header);
    SecurityListRecords(m2, cfg, patterns, list.body.event.instruments);
    SecurityListRequests(m2, cfg, patterns, list.body.event.instruments);
    var m' := AfterMessage(m1, cfg, patterns, list);
    assert m'.sent[..2] == m1.sent;
  }
}

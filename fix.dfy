// The FIX 4.4 vocabulary the proxy speaks on both of its sides: message
// types, the decoded session and application messages, and the enumerations
// whose values the proxy inspects or sets. Only the fields the proxy reads or
// writes are kept; everything else a message carries is folded into an opaque
// `payload` text.

module Fix {

  datatype MsgType =
    | HeartbeatType | TestRequestType | ResendRequestType | RejectType | LogoutType | LogonType
    | TradingSessionStatusRequestType
    | SecurityListRequestType | SecurityDefinitionRequestType | SecurityStatusRequestType
    | MarketDataRequestType
    | OrderStatusRequestType | OrderMassStatusRequestType | NewOrderSingleType
    | OrderCancelRequestType | OrderCancelReplaceRequestType | OrderMassCancelRequestType
    | RequestForPositionsType | TradeCaptureReportRequestType
    | BusinessMessageRejectType | SecurityListType | SecurityDefinitionType | SecurityStatusType
    | MarketDataRequestRejectType | MarketDataSnapshotFullRefreshType | MarketDataIncrementalRefreshType
    | OrderCancelRejectType | OrderMassCancelReportType | ExecutionReportType
    | RequestForPositionsAckType | PositionReportType
    | TradeCaptureReportRequestAckType | TradeCaptureReportType
    | UserRequestType | UserResponseType | SecurityListRequestAckType
    | OtherMsgType(code: string)

  datatype Side = NoSide | Buy | Sell
  datatype OrdType = NoOrdType | Market | Limit
  datatype TimeInForce = NoTimeInForce | GoodTillCancel
  datatype SubscriptionRequestType = NoSubscriptionRequestType | Snapshot | SnapshotAndUpdates | Unsubscribe
  datatype MassStatusReqType = NoMassStatusReqType | StatusForOrders
  datatype BusinessRejectReason = OtherBusinessReason | UnsupportedMessageType
  datatype UserRequestKind = LogOnUser | LogOffUser
  datatype UserStatus =
    | LoggedIn | NotLoggedIn | UserNotRecognized | PasswordIncorrect | PasswordChanged
    | OtherUserStatus | ForcedUserLogout | SessionShutdownWarning

  datatype PartyIdSource = ProprietaryCustomCode | OtherPartyIdSource(code: string)
  datatype PartyRole = ClientId | OtherPartyRole(code: nat)
  datatype Party = Party(partyId: string, source: PartyIdSource, role: PartyRole)

  datatype Instrument = Instrument(exchange: string, symbol: string)

  /** A price or quantity: absent, given as text (its decimals are known) or
    * given as a binary number (its decimals are not). */
  datatype Number = NoNumber | NumberText(text: string) | NumberValue(literal: string)

  /** Requests a client sends and the proxy forwards upstream. */
  datatype Request =
    | SecurityListRequest(securityReqId: string)
    | SecurityDefinitionRequest(securityReqId: string, instrument: Instrument)
    | SecurityStatusRequest(securityStatusReqId: string, instrument: Instrument)
    | MarketDataRequest(mdReqId: string, subscription: SubscriptionRequestType, marketDepth: nat,
                        instruments: seq<Instrument>)
    | OrderStatusRequest(ordStatusReqId: string, orderId: string, clOrdId: string, parties: seq<Party>)
    | OrderMassStatusRequest(massStatusReqId: string, massStatusReqType: MassStatusReqType, parties: seq<Party>)
    | NewOrderSingle(clOrdId: string, parties: seq<Party>, instrument: Instrument, side: Side,
                     quantity: Number, ordType: OrdType, price: Number, stopPx: Number,
                     timeInForce: TimeInForce)
    | OrderCancelRequest(clOrdId: string, origClOrdId: string, parties: seq<Party>, instrument: Instrument)
    | OrderCancelReplaceRequest(clOrdId: string, origClOrdId: string, parties: seq<Party>, payload: string)
    | OrderMassCancelRequest(clOrdId: string, parties: seq<Party>, payload: string)
    | RequestForPositions(posReqId: string, parties: seq<Party>, payload: string)
    | TradeCaptureReportRequest(tradeRequestId: string, clOrdId: string, parties: seq<Party>, payload: string)

  /** Responses and reports the upstream gateway sends and the proxy relays
    * to its clients. */
  datatype Event =
    | BusinessMessageReject(refSeqNum: nat, refMsgType: MsgType, refId: string,
                            reason: BusinessRejectReason, text: string)
    | SecurityList(securityReqId: string, instruments: seq<Instrument>)
    | SecurityDefinition(securityReqId: string, instrument: Instrument)
    | SecurityStatus(securityStatusReqId: string, instrument: Instrument)
    | MarketDataRequestReject(mdReqId: string, text: string)
    | MarketDataSnapshotFullRefresh(mdReqId: string, instrument: Instrument, payload: string)
    | MarketDataIncrementalRefresh(mdReqId: string, payload: string)
    | OrderCancelReject(clOrdId: string, text: string)
    | OrderMassCancelReport(clOrdId: string, payload: string)
    | ExecutionReport(clOrdId: string, payload: string)
    | RequestForPositionsAck(posReqId: string, payload: string)
    | PositionReport(posReqId: string, payload: string)
    | TradeCaptureReportRequestAck(tradeRequestId: string, payload: string)
    | TradeCaptureReport(tradeRequestId: string, payload: string)

  /** The decoded body of one inbound message. */
  datatype Body =
    | TestRequestBody(testReqId: string)
    | ResendRequestBody
    | RejectBody(text: string)
    | HeartbeatBody(testReqId: string)
    | LogonBody(username: string, password: string)
    | LogoutBody(text: string)
    | TradingSessionStatusRequestBody(tradSesReqId: string)
    | RequestBody(request: Request)
    | EventBody(event: Event)
    | UnknownBody(code: string)

  datatype Header = Header(msgType: MsgType, senderCompId: string, targetCompId: string, msgSeqNum: nat)

  datatype Message = Message(header: Header, body: Body)

  function RequestType(r: Request): MsgType
  {
    match r
    case SecurityListRequest(_) => SecurityListRequestType
    case SecurityDefinitionRequest(_, _) => SecurityDefinitionRequestType
    case SecurityStatusRequest(_, _) => SecurityStatusRequestType
    case MarketDataRequest(_, _, _, _) => MarketDataRequestType
    case OrderStatusRequest(_, _, _, _) => OrderStatusRequestType
    case OrderMassStatusRequest(_, _, _) => OrderMassStatusRequestType
    case NewOrderSingle(_, _, _, _, _, _, _, _, _) => NewOrderSingleType
    case OrderCancelRequest(_, _, _, _) => OrderCancelRequestType
    case OrderCancelReplaceRequest(_, _, _, _) => OrderCancelReplaceRequestType
    case OrderMassCancelRequest(_, _, _) => OrderMassCancelRequestType
    case RequestForPositions(_, _, _) => RequestForPositionsType
    case TradeCaptureReportRequest(_, _, _, _) => TradeCaptureReportRequestType
  }

  function EventType(e: Event): MsgType
  {
    match e
    case BusinessMessageReject(_, _, _, _, _) => BusinessMessageRejectType
    case SecurityList(_, _) => SecurityListType
    case SecurityDefinition(_, _) => SecurityDefinitionType
    case SecurityStatus(_, _) => SecurityStatusType
    case MarketDataRequestReject(_, _) => MarketDataRequestRejectType
    case MarketDataSnapshotFullRefresh(_, _, _) => MarketDataSnapshotFullRefreshType
    case MarketDataIncrementalRefresh(_, _) => MarketDataIncrementalRefreshType
    case OrderCancelReject(_, _) => OrderCancelRejectType
    case OrderMassCancelReport(_, _) => OrderMassCancelReportType
    case ExecutionReport(_, _) => ExecutionReportType
    case RequestForPositionsAck(_, _) => RequestForPositionsAckType
    case PositionReport(_, _) => PositionReportType
    case TradeCaptureReportRequestAck(_, _) => TradeCaptureReportRequestAckType
    case TradeCaptureReport(_, _) => TradeCaptureReportType
  }

  /** The MsgType (tag 35) of a message with this body. */
  function MsgTypeOf(b: Body): MsgType
  {
    match b
    case TestRequestBody(_) => TestRequestType
    case ResendRequestBody => ResendRequestType
    case RejectBody(_) => RejectType
    case HeartbeatBody(_) => HeartbeatType
    case LogonBody(_, _) => LogonType
    case LogoutBody(_) => LogoutType
    case TradingSessionStatusRequestBody(_) => TradingSessionStatusRequestType
    case RequestBody(r) => RequestType(r)
    case EventBody(e) => EventType(e)
    case UnknownBody(code) => OtherMsgType(code)
  }

  /** Requests that carry a party list (NoPartyIDs). */
  predicate HasParties(r: Request)
  {
    r.OrderStatusRequest? || r.OrderMassStatusRequest? || r.NewOrderSingle? || r.OrderCancelRequest? ||
    r.OrderCancelReplaceRequest? || r.OrderMassCancelRequest? || r.RequestForPositions? ||
    r.TradeCaptureReportRequest?
  }
}

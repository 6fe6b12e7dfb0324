// The proxy's controller: it forwards client requests to the upstream
// session of the same username, relays upstream events to the client
// session bound to that username, and translates market data request ids
// between the client's MDReqID and the server-side id it substitutes
// (src/roq/proxy/fix/controller.cpp).
//
// The two subscription maps are described by the value type `Subscriptions`
// and the functions below; the class `Controller` holds them in fields and
// records what it hands upstream (`upstream`) and what it delivers to client
// sessions (`delivered`). The upstream sessions a username can reach are the
// set `servers`; the client sessions the client manager still holds are
// passed in as `live`.

module ProxyController {
  import opened Common
  import opened Fix
  import opened SessionRegistry

  /** Where a server-side MDReqID leads: the client session and the MDReqID
    * that client used. */
  datatype Route = Route(sessionId: nat, clientId: string)

  datatype Subscriptions = Subscriptions(
    sessionToServer: map<nat, map<string, string>>,
    serverToSession: map<string, Route>)

  /** A request handed to the upstream session of `username`. */
  datatype Upstream = Upstream(username: string, request: Request)

  /** An event handed to client session `sessionId`. */
  datatype Downstream = Downstream(sessionId: nat, event: Event)

  // ---------------------------------------------------------------------------
  // Subscriptions

  /** The client MDReqID -> server MDReqID table of session `sid`; absent
    * and empty are the same. */
  function Entries(s: Subscriptions, sid: nat): (t: map<string, string>)
    ensures sid !in s.sessionToServer ==> t == map[]
    ensures sid in s.sessionToServer ==> t == s.sessionToServer[sid]
  {
    if sid in s.sessionToServer then s.sessionToServer[sid] else map[]
  }

  /** Every live server id leads back to the client subscription that holds
    * it. */
  ghost predicate Consistent(s: Subscriptions)
  {
    forall srv :: srv in s.serverToSession ==>
      s.serverToSession[srv].clientId in Entries(s, s.serverToSession[srv].sessionId) &&
      Entries(s, s.serverToSession[srv].sessionId)[s.serverToSession[srv].clientId] == srv
  }

  /** A client subscription whose server id is live is the one that id leads
    * to. */
  ghost predicate Faithful(s: Subscriptions)
  {
    forall sid, c ::
      sid in s.sessionToServer && c in s.sessionToServer[sid] && s.sessionToServer[sid][c] in s.serverToSession ==>
        s.serverToSession[s.sessionToServer[sid][c]] == Route(sid, c)
  }

  /** Every server id in the tables was issued by the request id counter at
    * or before `n`. */
  ghost predicate AllIssued(s: Subscriptions, n: nat)
  {
    forall sid, c :: sid in s.sessionToServer && c in s.sessionToServer[sid] ==> IssuedBy(s.sessionToServer[sid][c], n)
  }

  /** `id` is one of the request ids the counter produced up to `n`. */
  ghost predicate IssuedBy(id: string, n: nat)
  {
    exists k: nat :: k <= n && id == RequestId(k)
  }

  /** True when `srv` is the server id of some client subscription. */
  ghost predicate InUse(s: Subscriptions, srv: string)
  {
    exists sid, c :: sid in s.sessionToServer && c in s.sessionToServer[sid] && s.sessionToServer[sid][c] == srv
  }

  /** `find_server_subscription`: the route of a server id, if any. */
  function Lookup(s: Subscriptions, srv: string): (r: Option<Route>)
    ensures r.Some? <==> srv in s.serverToSession
  {
    if srv in s.serverToSession then Some(s.serverToSession[srv]) else None
  }

  /** Indexing `session_to_server[sid]` creates an empty table when there is
    * none. */
  function Touch(s: Subscriptions, sid: nat): Subscriptions
  {
    s.(sessionToServer := s.sessionToServer[sid := Entries(s, sid)])
  }

  /** Session `sid` subscribes under client id `c`, forwarded as `srv`. */
  function Subscribe(s: Subscriptions, sid: nat, c: string, srv: string): Subscriptions
  {
    Subscriptions(s.sessionToServer[sid := Entries(s, sid)[c := srv]], s.serverToSession[srv := Route(sid, c)])
  }

  /** The server ids of session `sid`. */
  function ServerIds(s: Subscriptions, sid: nat): set<string>
  {
    set c | c in Entries(s, sid) :: Entries(s, sid)[c]
  }

  /** On disconnect, every server id of the session is forgotten; the
    * session's own table is kept. */
  function Disconnect(s: Subscriptions, sid: nat): Subscriptions
  {
    s.(serverToSession := s.serverToSession - ServerIds(s, sid))
  }

  /** The unsubscribe request sent upstream for server id `srv`. */
  function UnsubscribeRequest(srv: string): (r: Request)
    ensures r.MarketDataRequest? && r.mdReqId == srv && r.subscription == SubscriptionRequestType.Unsubscribe
  {
    MarketDataRequest(srv, SubscriptionRequestType.Unsubscribe, 0, [])
  }

  // ---------------------------------------------------------------------------
  // Events relayed to clients

  predicate IsMarketData(e: Event)
  {
    e.MarketDataRequestReject? || e.MarketDataSnapshotFullRefresh? || e.MarketDataIncrementalRefresh?
  }

  /** The upstream events the controller relays. */
  predicate Relayed(e: Event)
  {
    IsMarketData(e) || e.BusinessMessageReject? || e.SecurityList? || e.SecurityDefinition? ||
    e.SecurityStatus? || e.OrderCancelReject? || e.ExecutionReport?
  }

  /** The client requests the controller forwards as they are. */
  predicate Routed(r: Request)
  {
    r.SecurityListRequest? || r.SecurityDefinitionRequest? || r.SecurityStatusRequest? ||
    r.OrderStatusRequest? || r.NewOrderSingle? || r.OrderCancelReplaceRequest? ||
    r.OrderCancelRequest? || r.OrderMassStatusRequest? || r.OrderMassCancelRequest?
  }

  /** The same market data event carrying MDReqID `id`. */
  function WithMdReqId(e: Event, id: string): (r: Event)
    requires IsMarketData(e)
  {
    match e
    case MarketDataRequestReject(_, text) => MarketDataRequestReject(id, text)
    case MarketDataSnapshotFullRefresh(_, instrument, payload) => MarketDataSnapshotFullRefresh(id, instrument, payload)
    case MarketDataIncrementalRefresh(_, payload) => MarketDataIncrementalRefresh(id, payload)
  }

  /** `dispatch_to_client`: the session that receives an event for
    * `username`, if it is bound and still held by the client manager. */
  function Recipient(r: Registry, live: set<nat>, username: string): (o: Option<nat>)
    ensures o.Some? <==> username in r.userToSession && r.userToSession[username] in live
  {
    match Find(r, username)
    case None => None
    case Some(sid) => if sid in live then Some(sid) else None
  }

  function Deliver(r: Registry, live: set<nat>, username: string, e: Event): seq<Downstream>
  {
    match Recipient(r, live, username)
    case None => []
    case Some(sid) => [Downstream(sid, e)]
  }

  /** What relaying upstream event `e` for `username` delivers. */
  function Deliveries(s: Subscriptions, r: Registry, live: set<nat>, username: string, e: Event): seq<Downstream>
    requires Relayed(e)
  {
    if IsMarketData(e) then
      match Lookup(s, e.mdReqId)
      case None => []
      case Some(route) => Deliver(r, live, username, WithMdReqId(e, route.clientId))
    else
      Deliver(r, live, username, e)
  }

  // ---------------------------------------------------------------------------
  // Properties

  /** The rewrite changes the MDReqID and nothing else: rewriting back
    * restores the event. */
  lemma RewriteRoundTrip(e: Event, id: string)
    requires IsMarketData(e)
    ensures IsMarketData(WithMdReqId(e, id)) && WithMdReqId(e, id).mdReqId == id
    ensures EventType(WithMdReqId(e, id)) == EventType(e)
    ensures WithMdReqId(WithMdReqId(e, id), e.mdReqId) == e
  {
  }

  /** An event is delivered only to a live session logged on as `username`. */
  lemma DeliveredToBoundSession(s: Subscriptions, r: Registry, live: set<nat>, username: string, e: Event)
    requires Bijective(r) && Relayed(e)
    ensures |Deliveries(s, r, live, username, e)| <= 1
    ensures forall d :: d in Deliveries(s, r, live, username, e) ==>
              d.sessionId in live && d.sessionId in r.sessionToUser && r.sessionToUser[d.sessionId] == username
  {
  }

  /** Market data whose server id is unknown is dropped; known ids are
    * rewritten to the client's MDReqID. */
  lemma MarketDataRewritten(s: Subscriptions, r: Registry, live: set<nat>, username: string, e: Event)
    requires IsMarketData(e)
    ensures e.mdReqId !in s.serverToSession ==> Deliveries(s, r, live, username, e) == []
    ensures forall d :: d in Deliveries(s, r, live, username, e) ==>
              e.mdReqId in s.serverToSession && d.event == WithMdReqId(e, s.serverToSession[e.mdReqId].clientId)
    ensures e.mdReqId in s.serverToSession ==>
              (|Deliveries(s, r, live, username, e)| == 1 <==> Recipient(r, live, username).Some?)
  {
  }

  /** Delivery follows the username of the upstream session; the session
    * recorded in the route is not consulted. */
  lemma DeliveryIgnoresSubscriber(s: Subscriptions, r: Registry, live: set<nat>, username: string, e: Event, sid: nat)
    requires IsMarketData(e) && e.mdReqId in s.serverToSession
    ensures var s' := s.(serverToSession := s.serverToSession[e.mdReqId := s.serverToSession[e.mdReqId].(sessionId := sid)]);
      Deliveries(s', r, live, username, e) == Deliveries(s, r, live, username, e)
  {
  }

  lemma TouchKeeps(s: Subscriptions, sid: nat, n: nat)
    requires Consistent(s) && Faithful(s) && AllIssued(s, n)
    ensures var t := Touch(s, sid); Consistent(t) && Faithful(t) && AllIssued(t, n)
    ensures forall x :: Entries(Touch(s, sid), x) == Entries(s, x)
  {
    var t := Touch(s, sid);
    forall x ensures Entries(t, x) == Entries(s, x) {
    }
  }

  /** A new subscription is routed back to the client id it came from. */
  lemma SubscribeRoutesBack(s: Subscriptions, sid: nat, c: string, srv: string)
    ensures Lookup(Subscribe(s, sid, c, srv), srv) == Some(Route(sid, c))
    ensures Entries(Subscribe(s, sid, c, srv), sid) == Entries(s, sid)[c := srv]
    ensures forall x :: x != sid ==> Entries(Subscribe(s, sid, c, srv), x) == Entries(s, x)
  {
  }

  /** Subscribing under a client id the session has not used keeps the maps
    * consistent. */
  lemma SubscribeKeepsConsistent(s: Subscriptions, sid: nat, c: string, srv: string)
    requires Consistent(s) && c !in Entries(s, sid)
    ensures Consistent(Subscribe(s, sid, c, srv))
  {
    var t := Subscribe(s, sid, c, srv);
    forall x | x in t.serverToSession
      ensures t.serverToSession[x].clientId in Entries(t, t.serverToSession[x].sessionId)
      ensures Entries(t, t.serverToSession[x].sessionId)[t.serverToSession[x].clientId] == x
    {
      if x != srv {
        var route := s.serverToSession[x];
        assert route.clientId in Entries(s, route.sessionId);
        assert route != Route(sid, c);
      }
    }
  }

  /** ... and faithful, when the server id is not already in use. */
  lemma SubscribeKeepsFaithful(s: Subscriptions, sid: nat, c: string, srv: string)
    requires Faithful(s) && !InUse(s, srv)
    ensures Faithful(Subscribe(s, sid, c, srv))
  {
    var t := Subscribe(s, sid, c, srv);
    forall x, y | x in t.sessionToServer && y in t.sessionToServer[x] && t.sessionToServer[x][y] in t.serverToSession
      ensures t.serverToSession[t.sessionToServer[x][y]] == Route(x, y)
    {
      if (x, y) != (sid, c) {
        var v := t.sessionToServer[x][y];
        assert x in s.sessionToServer && y in s.sessionToServer[x] && s.sessionToServer[x][y] == v;
        assert v != srv;
      }
    }
  }

  /** A fresh request id is in use nowhere. */
  lemma FreshIdUnused(s: Subscriptions, n: nat)
    requires AllIssued(s, n)
    ensures !InUse(s, RequestId(n + 1))
  {
    if InUse(s, RequestId(n + 1)) {
      var sid, c :| sid in s.sessionToServer && c in s.sessionToServer[sid] && s.sessionToServer[sid][c] == RequestId(n + 1);
      var k: nat :| k <= n && s.sessionToServer[sid][c] == RequestId(k);
      RequestIdInjective(k, n + 1);
    }
  }

  /** Ids issued up to `n` are issued up to any later counter value. */
  lemma IssuedMonotone(s: Subscriptions, n: nat, n': nat)
    requires AllIssued(s, n) && n <= n'
    ensures AllIssued(s, n')
  {
  }

  lemma SubscribeKeepsIssued(s: Subscriptions, sid: nat, c: string, n: nat)
    requires AllIssued(s, n)
    ensures AllIssued(Subscribe(s, sid, c, RequestId(n + 1)), n + 1)
  {
    var t := Subscribe(s, sid, c, RequestId(n + 1));
    forall x, y | x in t.sessionToServer && y in t.sessionToServer[x]
      ensures IssuedBy(t.sessionToServer[x][y], n + 1)
    {
      if (x, y) == (sid, c) {
        assert t.sessionToServer[x][y] == RequestId(n + 1);
      } else {
        assert x in s.sessionToServer && y in s.sessionToServer[x] && t.sessionToServer[x][y] == s.sessionToServer[x][y];
        var k: nat :| k <= n && s.sessionToServer[x][y] == RequestId(k);
      }
    }
  }

  /** Forgetting server ids keeps every invariant. */
  lemma ForgetKeeps(s: Subscriptions, ids: set<string>, n: nat)
    requires Consistent(s) && Faithful(s) && AllIssued(s, n)
    ensures var t := s.(serverToSession := s.serverToSession - ids); Consistent(t) && Faithful(t) && AllIssued(t, n)
  {
  }

  lemma InServerIds(s: Subscriptions, sid: nat, c: string)
    requires c in Entries(s, sid)
    ensures Entries(s, sid)[c] in ServerIds(s, sid)
  {
  }

  /** After a disconnect no server id leads to the session any more, and
    * every other route is kept. */
  lemma DisconnectForgetsSession(s: Subscriptions, sid: nat)
    requires Consistent(s)
    ensures forall srv :: srv in Disconnect(s, sid).serverToSession ==> Disconnect(s, sid).serverToSession[srv].sessionId != sid
    ensures forall srv :: srv in s.serverToSession && s.serverToSession[srv].sessionId != sid && Faithful(s) ==>
              srv in Disconnect(s, sid).serverToSession
    ensures Disconnect(s, sid).sessionToServer == s.sessionToServer
  {
    forall srv | srv in Disconnect(s, sid).serverToSession
      ensures Disconnect(s, sid).serverToSession[srv].sessionId != sid
    {
      var route := s.serverToSession[srv];
      InServerIds(s, route.sessionId, route.clientId);
    }
    forall srv | srv in s.serverToSession && s.serverToSession[srv].sessionId != sid && Faithful(s)
      ensures srv in Disconnect(s, sid).serverToSession
    {
      if srv in ServerIds(s, sid) {
        var c :| c in Entries(s, sid) && Entries(s, sid)[c] == srv;
        assert s.serverToSession[srv] == Route(sid, c);
      }
    }
  }

  /** `keys` lists the keys of `m`, each once, in some order. */
  ghost predicate EnumeratesKeys(keys: seq<string>, m: map<string, string>)
  {
    (forall i :: 0 <= i < |keys| ==> keys[i] in m) &&
    (forall c :: c in m ==> c in keys) &&
    (forall i, j :: 0 <= i < j < |keys| ==> keys[i] != keys[j])
  }

  /** The unsubscribe requests for the server ids of `keys`, in order. */
  function Unsubscribes(username: string, entries: map<string, string>, keys: seq<string>): (u: seq<Upstream>)
    requires forall i :: 0 <= i < |keys| ==> keys[i] in entries
    ensures |u| == |keys|
    ensures forall i :: 0 <= i < |keys| ==> u[i] == Upstream(username, UnsubscribeRequest(entries[keys[i]]))
  {
    if keys == [] then []
    else Unsubscribes(username, entries, keys[..|keys| - 1]) +
         [Upstream(username, UnsubscribeRequest(entries[keys[|keys| - 1]]))]
  }

  /** The server ids of `keys`. */
  function Targets(entries: map<string, string>, keys: seq<string>): set<string>
    requires forall i :: 0 <= i < |keys| ==> keys[i] in entries
  {
    set i | 0 <= i < |keys| :: entries[keys[i]]
  }

  lemma TargetsStep(entries: map<string, string>, keys: seq<string>, i: nat)
    requires forall i :: 0 <= i < |keys| ==> keys[i] in entries
    requires i < |keys|
    ensures keys[..i + 1][..i] == keys[..i]
    ensures Targets(entries, keys[..i + 1]) == Targets(entries, keys[..i]) + {entries[keys[i]]}
  {
    assert keys[..i + 1][..i] == keys[..i];
    var t, t' := Targets(entries, keys[..i]), Targets(entries, keys[..i + 1]);
    forall x | x in t' ensures x in t + {entries[keys[i]]} {
      var j :| 0 <= j < i + 1 && x == entries[keys[..i + 1][j]];
      if j < i {
        assert x == entries[keys[..i][j]];
      }
    }
    forall x | x in t ensures x in t' {
      var j :| 0 <= j < i && x == entries[keys[..i][j]];
      assert x == entries[keys[..i + 1][j]];
    }
    assert entries[keys[i]] == entries[keys[..i + 1][i]];
  }

  /** When `keys` lists the session's client ids, their server ids are the
    * session's server ids. */
  lemma TargetsAreServerIds(s: Subscriptions, sid: nat, keys: seq<string>)
    requires EnumeratesKeys(keys, Entries(s, sid))
    ensures Targets(Entries(s, sid), keys) == ServerIds(s, sid)
  {
    var e := Entries(s, sid);
    forall x | x in ServerIds(s, sid) ensures x in Targets(e, keys) {
      var c :| c in e && e[c] == x;
      var j :| 0 <= j < |keys| && keys[j] == c;
      assert x == e[keys[j]];
    }
  }

  /** Every client id of the session is unsubscribed under its own server
    * id, and nothing else is sent. */
  lemma UnsubscribesCover(username: string, entries: map<string, string>, keys: seq<string>)
    requires EnumeratesKeys(keys, entries)
    ensures |Unsubscribes(username, entries, keys)| == |keys|
    ensures forall c :: c in entries ==> Upstream(username, UnsubscribeRequest(entries[c])) in Unsubscribes(username, entries, keys)
    ensures forall u :: u in Unsubscribes(username, entries, keys) ==>
              exists c :: c in entries && u == Upstream(username, UnsubscribeRequest(entries[c]))
  {
    var u := Unsubscribes(username, entries, keys);
    forall c | c in entries ensures Upstream(username, UnsubscribeRequest(entries[c])) in u {
      var j :| 0 <= j < |keys| && keys[j] == c;
      assert u[j] == Upstream(username, UnsubscribeRequest(entries[c]));
    }
  }


  // ---------------------------------------------------------------------------
  // The controller

  class Controller {
    const shared: Shared
    /** The usernames that have an upstream session. */
    const servers: set<string>
    var sessionToServer: map<nat, map<string, string>>
    var serverToSession: map<string, Route>
    var upstream: seq<Upstream>
    var delivered: seq<Downstream>

    ghost function Subs(): Subscriptions
      reads this
    {
      Subscriptions(sessionToServer, serverToSession)
    }

    ghost predicate Valid()
      reads this, shared
    {
      shared.Valid() && Consistent(Subs()) && Faithful(Subs()) && AllIssued(Subs(), shared.nextRequestId)
    }

    constructor(shared: Shared, servers: set<string>)
      requires shared.Valid()
      ensures this.shared == shared && this.servers == servers
      ensures Subs() == Subscriptions(map[], map[]) && upstream == [] && delivered == []
      ensures Valid()
    {
      this.shared := shared;
      this.servers := servers;
      sessionToServer := map[];
      serverToSession := map[];
      upstream := [];
      delivered := [];
    }

    /** `dispatch_to_server`: hand `request` to the upstream session of
      * `username`; an unknown username is fatal. */
    method DispatchToServer(request: Request, username: string) returns (fatal: bool)
      modifies this
      ensures fatal <==> username !in servers
      ensures upstream == old(upstream) + if fatal then [] else [Upstream(username, request)]
      ensures Subs() == old(Subs()) && delivered == old(delivered)
    {
      if username !in servers {
        return true;
      }
      upstream := upstream + [Upstream(username, request)];
      return false;
    }

    /** `dispatch_to_client`: deliver `event` to the session bound to
      * `username` if the client manager still holds it. */
    method DispatchToClient(event: Event, username: string, live: set<nat>) returns (success: bool)
      requires shared.Valid()
      modifies this
      ensures success <==> Recipient(shared.Model(), live, username).Some?
      ensures delivered == old(delivered) + Deliver(shared.Model(), live, username, event)
      ensures Subs() == old(Subs()) && upstream == old(upstream)
    {
      var found := shared.SessionFind(username);
      if found.None? || found.value !in live {
        return false;
      }
      delivered := delivered + [Downstream(found.value, event)];
      return true;
    }

    /** `find_server_subscription`. */
    method FindServerSubscription(srv: string) returns (route: Option<Route>)
      ensures route == Lookup(Subs(), srv)
    {
      if srv !in serverToSession {
        return None;
      }
      return Some(serverToSession[srv]);
    }

    /** An event from the upstream session of `username`. */
    method OnEvent(event: Event, username: string, live: set<nat>)
      requires Valid() && Relayed(event)
      modifies this
      ensures Valid()
      ensures delivered == old(delivered) + Deliveries(old(Subs()), shared.Model(), live, username, event)
      ensures Subs() == old(Subs()) && upstream == old(upstream)
    {
      if !IsMarketData(event) {
        var _ := DispatchToClient(event, username, live);
        return;
      }
      var route := FindServerSubscription(event.mdReqId);
      if route.None? {
        return;
      }
      var _ := DispatchToClient(WithMdReqId(event, route.value.clientId), username, live);
    }

    /** A request a client session forwards for `username`. */
    method OnRequest(request: Request, username: string) returns (fatal: bool)
      requires Routed(request)
      modifies this
      ensures fatal <==> username !in servers
      ensures upstream == old(upstream) + if fatal then [] else [Upstream(username, request)]
      ensures Subs() == old(Subs()) && delivered == old(delivered)
    {
      fatal := DispatchToServer(request, username);
    }

    /** A MarketDataRequest from client session `sessionId`: a client id the
      * session has not used yet is forwarded under a fresh server id and
      * recorded in both maps; a reused one is ignored. */
    method OnMarketDataRequest(request: Request, username: string, sessionId: nat) returns (fatal: bool)
      requires Valid() && request.MarketDataRequest?
      modifies this, shared
      ensures Valid() && delivered == old(delivered)
      ensures request.mdReqId in Entries(old(Subs()), sessionId) ==>
                !fatal && Subs() == old(Subs()) && upstream == old(upstream) && shared.Model() == old(shared.Model())
      ensures request.mdReqId !in Entries(old(Subs()), sessionId) ==>
                shared.Model() == NextRequestId(old(shared.Model())) && (fatal <==> username !in servers)
      ensures request.mdReqId !in Entries(old(Subs()), sessionId) && fatal ==>
                Subs() == Touch(old(Subs()), sessionId) && upstream == old(upstream)
      ensures request.mdReqId !in Entries(old(Subs()), sessionId) && !fatal ==>
                var srv := RequestId(old(shared.nextRequestId) + 1);
                Subs() == Subscribe(old(Subs()), sessionId, request.mdReqId, srv) &&
                upstream == old(upstream) + [Upstream(username, request.(mdReqId := srv))]
    {
      ghost var before := Subs();
      ghost var n := shared.nextRequestId;
      var entries := if sessionId in sessionToServer then sessionToServer[sessionId] else map[];
      if request.mdReqId in entries {
        return false;
      }
      fatal := SubscribeNew(request, username, sessionId, entries);
    }

    /** The client id is new to the session: take a fresh request id as the
      * server id, forward under it and record the pair. */
    method SubscribeNew(request: Request, username: string, sessionId: nat, entries: map<string, string>)
      returns (fatal: bool)
      requires Valid() && request.MarketDataRequest?
      requires entries == Entries(Subs(), sessionId) && request.mdReqId !in entries
      modifies this, shared
      ensures Valid() && delivered == old(delivered)
      ensures shared.Model() == NextRequestId(old(shared.Model())) && (fatal <==> username !in servers)
      ensures fatal ==> Subs() == Touch(old(Subs()), sessionId) && upstream == old(upstream)
      ensures !fatal ==>
                var srv := RequestId(old(shared.nextRequestId) + 1);
                Subs() == Subscribe(old(Subs()), sessionId, request.mdReqId, srv) &&
                upstream == old(upstream) + [Upstream(username, request.(mdReqId := srv))]
    {
      ghost var before := Subs();
      ghost var n := shared.nextRequestId;
      var srv := shared.CreateRequestId();
      assert srv == RequestId(n + 1);
      IssuedMonotone(before, n, shared.nextRequestId);
      fatal := DispatchToServer(request.(mdReqId := srv), username);
      if fatal {
        OpenEntries(sessionId, entries);
        return;
      }
      FreshIdUnused(before, n);
      Record(sessionId, request.mdReqId, srv, entries);
    }

    /** `session_to_server[session_id]` looked up with `operator[]`: the
      * session gets an (empty) table if it had none, and no lookup changes. */
    method OpenEntries(sessionId: nat, entries: map<string, string>)
      requires Consistent(Subs()) && Faithful(Subs()) && shared.Valid() && AllIssued(Subs(), shared.nextRequestId)
      requires entries == Entries(Subs(), sessionId)
      modifies this
      ensures Valid()
      ensures Subs() == Touch(old(Subs()), sessionId)
      ensures upstream == old(upstream) && delivered == old(delivered)
    {
      ghost var before := Subs();
      sessionToServer := sessionToServer[sessionId := entries];
      TouchKeeps(before, sessionId, shared.nextRequestId);
    }

    /** Record that client id `c` of session `sessionId` is server id `srv`. */
    method Record(sessionId: nat, c: string, srv: string, entries: map<string, string>)
      requires Consistent(Subs()) && Faithful(Subs()) && shared.Valid() && shared.nextRequestId > 0
      requires AllIssued(Subs(), shared.nextRequestId - 1) && srv == RequestId(shared.nextRequestId)
      requires entries == Entries(Subs(), sessionId) && c !in entries && !InUse(Subs(), srv)
      modifies this
      ensures Valid()
      ensures Subs() == Subscribe(old(Subs()), sessionId, c, srv)
      ensures upstream == old(upstream) && delivered == old(delivered)
    {
      ghost var before := Subs();
      sessionToServer := sessionToServer[sessionId := entries[c := srv]];
      serverToSession := serverToSession[srv := Route(sessionId, c)];
      SubscribeKeepsConsistent(before, sessionId, c, srv);
      SubscribeKeepsFaithful(before, sessionId, c, srv);
      SubscribeKeepsIssued(before, sessionId, c, shared.nextRequestId - 1);
    }

    /** Client session `sessionId` of `username` went away: every one of its
      * subscriptions is unsubscribed upstream under its server id, in the
      * table's iteration order, and the server id is forgotten. */
    method OnDisconnect(sessionId: nat, username: string) returns (fatal: bool, ghost order: seq<string>)
      requires Valid()
      modifies this
      ensures Valid() && delivered == old(delivered)
      ensures fatal <==> Entries(old(Subs()), sessionId) != map[] && username !in servers
      ensures fatal ==> Subs() == old(Subs()) && upstream == old(upstream)
      ensures !fatal ==> Subs() == Disconnect(old(Subs()), sessionId)
      ensures !fatal ==> EnumeratesKeys(order, Entries(old(Subs()), sessionId))
      ensures !fatal ==> upstream == old(upstream) + Unsubscribes(username, Entries(old(Subs()), sessionId), order)
    {
      ghost var before := Subs();
      var entries := if sessionId in sessionToServer then sessionToServer[sessionId] else map[];
      var keys := Enumerate(entries.Keys);
      order := keys;
      fatal := UnsubscribeEach(entries, keys, username);
      if fatal {
        return;
      }
      TargetsAreServerIds(before, sessionId, keys);
      assert Subs() == Disconnect(before, sessionId);
      ForgetKeeps(before, ServerIds(before, sessionId), shared.nextRequestId);
    }

    /** The loop of `OnDisconnect`, over the client ids `keys`. */
    method UnsubscribeEach(entries: map<string, string>, keys: seq<string>, username: string) returns (fatal: bool)
      requires forall i :: 0 <= i < |keys| ==> keys[i] in entries
      modifies this
      ensures fatal <==> |keys| > 0 && username !in servers
      ensures fatal ==> Subs() == old(Subs()) && upstream == old(upstream)
      ensures !fatal ==> upstream == old(upstream) + Unsubscribes(username, entries, keys)
      ensures !fatal ==> serverToSession == old(serverToSession) - Targets(entries, keys)
      ensures sessionToServer == old(sessionToServer) && delivered == old(delivered)
    {
      var i := 0;
      while i < |keys|
        invariant i <= |keys|
        invariant i > 0 ==> username in servers
        invariant upstream == old(upstream) + Unsubscribes(username, entries, keys[..i])
        invariant serverToSession == old(serverToSession) - Targets(entries, keys[..i])
        invariant sessionToServer == old(sessionToServer) && delivered == old(delivered)
      {
        fatal := DispatchToServer(UnsubscribeRequest(entries[keys[i]]), username);
        if fatal {
          return;
        }
        serverToSession := serverToSession - {entries[keys[i]]};
        TargetsStep(entries, keys, i);
        i := i + 1;
      }
      assert keys[..i] == keys;
      return false;
    }
  }
}

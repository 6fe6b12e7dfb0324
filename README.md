# roq-fix-proxy, modelled in Dafny

This project models the core of roq-fix-proxy, a FIX 4.4 proxy. Clients
connect to it over FIX, or over JSON-RPC on a websocket. They log on with a
username and password taken from the proxy's configuration. The proxy then
forwards their order and market data requests to one upstream FIX gateway,
under a single upstream connection per user. Upstream execution reports
and rejects are routed back to the client session bound to the username
they carry. Market data request ids are rewritten so that several clients
can use the same id.

The model covers these parts:

- **The shared session registry** (`SessionRegistry`). It holds the
  configured credentials and a one-to-one binding between logged-on
  usernames and session ids. It also keeps the queue of sessions waiting to
  be garbage collected, the request id counter and the set of symbols
  the upstream sessions have listed. The pure functions
  `Logon`, `Logout`, `Remove` and `Cleanup` describe it. The class
  `SessionRegistry.Shared` is proved to follow them and to keep the binding
  bijective.
- **The FIX client session** (`ClientSessionModel`, `ClientSession`). This
  is the state machine WAITING_LOGON -> WAITING_CREATE_ROUTE -> READY ->
  WAITING_REMOVE_ROUTE -> ZOMBIE. It includes sequence numbers, heartbeats
  and test requests, logon and logout through the registry, and request
  validation and forwarding. It also covers the read loop that decodes
  frames until a frame is incomplete or the session becomes a zombie.
- **The variant FIX client session** (`ClientFixSessionModel`,
  `ClientFixSession`). In this variant the controller confirms the user.
- **The JSON-RPC client session** (`JsonSessionModel`, `JsonSession`), with
  its REST symbols resource (`Rest`).
- **The upstream FIX session** (`ServerSessionModel`, `ServerSession`). It
  logs on, downloads the security list, keeps the link alive and relays
  upstream events. Both versions of the source are covered; they differ
  only where `ServerSessionModel.Variant` says.
- **The controller** (`ProxyController`). It routes requests to the
  upstream side, routes events back to clients and translates market data
  request ids.
- **The three session managers** (`Managers`, `ClientManager`,
  `LegacyClientManager`). Each one numbers sessions and garbage-collects
  zombies at most once per second.
- **The "simple" front end** (`SimpleJsonModel`, `SimpleJson`,
  `SimpleShared`, `SimpleController`). It is a JSON-RPC front end for a
  single FIX connection.

The models follow one pattern. Each session is first a value type `Model`,
with one function `After...` per event that says how the event changes the
`Model`, and lemmas about those functions. Each session is then a class
whose fields the handlers update in place. Every method of the class
ensures that `View()` becomes the matching `After...` of the old
`View()`. The class also keeps the invariant `Valid()`.

Several parts of the source are parameters of the model rather than code
in it:

- the FIX codec, the JSON parser, regular expressions and the clock;
- the transport's send and close operations.

Outgoing messages are appended to sequences such as `sent` and `upcalls`.
A sequence stands for what the session has emitted so far.

## Model

| member | source | states |
|---|---|---|
| SessionRegistry.LogonOutcomeOf | src/roq/proxy/fix/shared.cpp:67-87 | defines the logon decision: INVALID_PASSWORD for an unknown user or a wrong password, otherwise ALREADY_LOGGED_ON for a user already bound, otherwise success with the user's strategy id; `LogonSucceedsIff` and `SecondLogonRefused` state it as properties |
| SessionRegistry.Logon | src/roq/proxy/fix/shared.cpp:67-87 | defines the registry after a logon: a success binds username and session both ways with insert-if-absent, a failure changes nothing; `LogonBinds` proves the binding and that the bijection is kept |
| SessionRegistry.LogoutOutcomeOf | src/roq/proxy/fix/shared.cpp:89-98 | defines the logout decision: NOT_LOGGED_ON exactly for a session without a user; `LogoutRefusedIffUnbound` states it |
| SessionRegistry.Unbind | src/roq/proxy/fix/shared.cpp:100-108 | defines dropping a session's binding from both maps; `UnbindKeepsBijection` proves the maps stay inverse |
| SessionRegistry.Logout | src/roq/proxy/fix/shared.cpp:89-98 | defines the registry after a logout as the unbinding of the session; `LogoutUndoesLogon` proves it undoes a successful logon |
| SessionRegistry.Remove | src/roq/proxy/fix/shared.cpp:62-65 | defines `session_remove`: the session is queued for removal and loses its binding; `RemoveQueuesAndIsIdempotent` proves both and that a second removal changes nothing |
| SessionRegistry.Cleanup | src/roq/proxy/fix/shared.hpp:59-66 | defines the collection: every queued session loses its binding and the queue is emptied; `CleanupUnbindsQueued` proves it |
| SessionRegistry.UnbindAll | src/roq/proxy/fix/shared.hpp:61-64 | defines dropping the bindings of a set of sessions; `UnbindAllKeepsBijection` proves the maps stay inverse |
| SessionRegistry.RemoveAll | src/roq/proxy/fix/shared.cpp:62-65 | defines the removal of a set of sessions: all queued, all unbound; `RemoveOneMore` proves it is what removing them one by one gives |
| SessionRegistry.RemoveOneMore | src/roq/proxy/fix/shared.cpp:62-65 | removing one more session after a set of removals is the removal of the enlarged set, so removals made one after another, in any order, compose |
| SessionRegistry.Find | src/roq/proxy/fix/shared.hpp:68-75 | defines the lookup of the session bound to a username; `FindAgreesWithBinding` proves it |
| SessionRegistry.NextRequestId | src/roq/proxy/fix/shared.cpp:115-117 | defines the counter increment; `SuccessiveRequestIdsDiffer` proves successive request ids differ |
| SessionRegistry.CredentialTable | src/roq/proxy/fix/shared.cpp:20-27 | a username is in the credential table exactly when some configured user has it |
| SessionRegistry.CredentialTableFirstWins | src/roq/proxy/fix/shared.cpp:24-25 | `try_emplace` keeps the first configured user of a name: that user's password and strategy id are the ones stored |
| SessionRegistry.Initial | src/roq/proxy/fix/shared.cpp:47-53 | a fresh registry binds nobody, queues nothing, is bijective, starts session ids at 0 and request ids at the clock reading |
| SessionRegistry.RequestId | src/roq/proxy/fix/shared.cpp:115-117 | every request id is `proxy-` followed by more text |
| SessionRegistry.RequestIdInjective | src/roq/proxy/fix/shared.cpp:115-117 | different counter values give different request ids |
| SessionRegistry.SuccessiveRequestIdsDiffer | src/roq/proxy/fix/shared.cpp:115-117 | two successive `create_request_id` calls never give the same id |
| SessionRegistry.LogonBinds | src/roq/proxy/fix/shared.cpp:67-87 | logon keeps the binding bijective; on success it binds username and session id in both directions, on failure nothing changes |
| SessionRegistry.LogonSucceedsIff | src/roq/proxy/fix/shared.cpp:69-78 | logon succeeds if and only if the user is configured, the password matches and the user is not logged on, and then it yields the configured strategy id |
| SessionRegistry.SecondLogonRefused | src/roq/proxy/fix/shared.cpp:74-78 | once a user is logged on, a second logon under that username (from any session, any password) is refused and changes nothing |
| SessionRegistry.LogoutUndoesLogon | src/roq/proxy/fix/shared.cpp:89-97 | a logout right after a successful logon succeeds and restores the registry exactly |
| SessionRegistry.LogoutRefusedIffUnbound | src/roq/proxy/fix/shared.cpp:89-92 | logout answers NOT_LOGGED_ON if and only if the session is unbound, and then changes nothing |
| SessionRegistry.UnbindKeepsBijection | src/roq/proxy/fix/shared.cpp:100-108 | unbinding a session keeps the binding bijective, frees the session and its username and leaves every other binding and the removal queue as they were |
| SessionRegistry.RemoveQueuesAndIsIdempotent | src/roq/proxy/fix/shared.cpp:62-65 | `session_remove` queues the session, unbinds it, keeps the bijection, and doing it twice is the same as once |
| SessionRegistry.CleanupUnbindsQueued | src/roq/proxy/fix/shared.hpp:59-66 | cleanup empties the queue, unbinds every queued session, keeps every other binding and keeps the bijection |
| SessionRegistry.UnbindAllKeepsBijection | src/roq/proxy/fix/shared.hpp:61-63 | unbinding any set of sessions one by one keeps the bijection |
| SessionRegistry.FindAgreesWithBinding | src/roq/proxy/fix/shared.hpp:68-75 | finding a username fails exactly when it is unbound, and otherwise yields the session bound to it |
| SessionRegistry.Shared.constructor | src/roq/proxy/fix/shared.cpp:47-53 | the object starts as `Initial` of the configured users and the clock reading, with the configured symbol patterns and no symbols |
| SessionRegistry.Shared.Include | src/roq/proxy/fix/shared.cpp:55-60 | a symbol is included if and only if some configured pattern matches it |
| SessionRegistry.Shared.LogonHelper | src/roq/proxy/fix/shared.cpp:67-87 | moves the registry as `Logon` says and returns the empty error with the strategy id on success, the refusal reason otherwise |
| SessionRegistry.Shared.SessionLogon | src/roq/proxy/fix/shared.hpp:33-46 | moves the registry as `Logon` says, keeps it valid, and reports the outcome that `LogonOutcomeOf` predicts |
| SessionRegistry.Shared.LogoutHelper | src/roq/proxy/fix/shared.cpp:89-98 | moves the registry as `Logout` says and returns NOT_LOGGED_ON exactly when the session was unbound |
| SessionRegistry.Shared.SessionLogout | src/roq/proxy/fix/shared.hpp:48-55 | moves the registry as `Logout` says and reports the predicted outcome |
| SessionRegistry.Shared.RemoveHelper | src/roq/proxy/fix/shared.cpp:100-108 | moves the registry as `Unbind` says and keeps it valid |
| SessionRegistry.Shared.SessionRemove | src/roq/proxy/fix/shared.cpp:62-65 | moves the registry as `Remove` says and keeps it valid |
| SessionRegistry.Shared.SessionCleanup | src/roq/proxy/fix/shared.hpp:59-66 | moves the registry as `Cleanup` says and hands each queued session id to the caller exactly once |
| SessionRegistry.Shared.UnbindQueued | src/roq/proxy/fix/shared.hpp:61-64 | the loop over the queue unbinds exactly the queued sessions and lists each of them once |
| SessionRegistry.Shared.UnbindNext | src/roq/proxy/fix/shared.hpp:61-64 | one turn of the cleanup loop unbinds one more queued session, so the registry is the unbinding of every session handled so far |
| SessionRegistry.Shared.SessionFind | src/roq/proxy/fix/shared.hpp:68-75 | finds the session bound to a username, and fails exactly when there is none |
| SessionRegistry.Shared.CreateRequestId | src/roq/proxy/fix/shared.cpp:115-117 | increments the counter first and returns the id of the new value |
| Common.Decimal | src/roq/proxy/fix/client/session.cpp:612 | the decimal text of a number is a non-empty string of digits, one digit long exactly below 10, whose last digit is the number modulo 10 |
| Common.DecimalInjective | src/roq/proxy/fix/client/session.cpp:612 | different numbers have different decimal texts, so party ids and test request ids identify their number |
| Json.ParseEnvelope | src/roq/proxy/fix/client/json/session.cpp:323-344 | defines the envelope checks: `jsonrpc` the string "2.0", `method` a string, `params` and `id` present; `EnvelopeRoundTrip` and `EnvelopeNeedsVersion` prove it accepts exactly such documents |
| Json.IntegerLiteral | src/roq/proxy/fix/client/json/session.cpp:326 | an integer literal is kept as an integer exactly when it lies in the int64 or uint64 range, with its value; beyond them it becomes a floating-point number |
| Json.AsInt64 | src/roq/proxy/fix/client/json/session.cpp:537 | `get<int64_t>` of an integer: a value in the int64 range, congruent to the integer modulo 2^64, and the integer itself when it fits in int64 |
| Json.TypedId | src/roq/proxy/fix/client/json/session.cpp:507-542 | the id echoed with its JSON type: present exactly for a string or an integer id |
| Json.EchoWrapsUnsigned | src/roq/proxy/fix/client/json/session.cpp:526-537 | an unsigned id above the int64 maximum is echoed as that id minus 2^64, which differs from its own JSON text |
| Json.HugeIdUnanswered | src/roq/proxy/fix/client/json/session.cpp:507-542 | an integer id beyond the uint64 range is parsed as a floating-point number and so gets no reply |
| Json.FindIn | src/roq/proxy/fix/client/json/session.cpp:83-87 | a key is missing exactly when no member has it, and a value found belongs to a member with that key |
| Json.FindKey | src/roq/proxy/fix/client/json/session.cpp:83-87 | looking a key up in anything but an object finds nothing |
| Json.IntText | src/roq/proxy/fix/client/json/session.cpp:528-537 | the text of an integer id is non-empty and starts with `-` exactly when the integer is negative |
| Json.IntTextInjective | src/roq/proxy/fix/client/json/session.cpp:528-537 | different integer ids have different texts |
| Json.EchoedId | src/roq/proxy/fix/client/json/session.cpp:507-542 | a reply is sent exactly when the request id is a string or an integer; a string id and an integer id within the int64 range are echoed with their own type and value, an unsigned id above it wraps as `get<int64_t>` does |
| Json.EchoIsJson | src/roq/proxy/fix/client/json/session.cpp:507-542 | an integer id, or a string id without characters that need escaping, echoed with its type is its own JSON text |
| Json.EchoInjective | src/roq/proxy/fix/client/json/session.cpp:507-542 | different request ids, integers among them within the int64 range, are echoed differently, so a client can match each reply to its request |
| Json.ReplyIsJson | src/roq/proxy/fix/client/json/session.cpp:507-542 | when kind, message and string id need no escaping, the hand-formatted reply is exactly the JSON serialisation of the object it stands for, and so is the proxy's reply for a string id or an integer id within the int64 range |
| Json.EnvelopeRoundTrip | src/roq/proxy/fix/client/json/session.cpp:323-344 | every JSON-RPC request built from an envelope parses back to that envelope |
| Json.EnvelopeNeedsVersion | src/roq/proxy/fix/client/json/session.cpp:323-344 | a document parses only if its `jsonrpc` member is "2.0", and the envelope's method, params and id are the document's members |
| Rest.StripPrefix | src/roq/proxy/fix/client/json/session.cpp:237-240 | defines dropping the configured URL prefix when it is the first path segment; `StripPrefixDropsOnce` proves it |
| Rest.SymbolsResponse | src/roq/proxy/fix/client/json/session.cpp:307-317 | defines the symbols response: 404 with an empty array when there are no symbols, 200 with the quoted symbols joined by commas otherwise; `SymbolsAreJsonArray` proves the body is the JSON array of the symbols |
| Rest.JsonStrings | src/roq/proxy/fix/client/json/session.cpp:311-315 | each symbol becomes a JSON string, in order |
| Rest.StripPrefixDropsOnce | src/roq/proxy/fix/client/json/session.cpp:237-240 | the configured URL prefix is dropped once when it is the first path segment, and an empty prefix drops nothing |
| Rest.DumpItemsJoin | src/roq/proxy/fix/client/json/session.cpp:311-315 | serialising the symbols from position k is the quoted symbols joined by `","` |
| Rest.SymbolsAreJsonArray | src/roq/proxy/fix/client/json/session.cpp:307-317 | the symbols response is the JSON array of the symbols, with 404 when there are none and 200 otherwise |
| ClientSessionModel.Accepted | src/roq/proxy/fix/client/session.cpp:59-63 | defines the accepted session; `AcceptedInv` proves it satisfies the invariant |
| ClientSessionModel.AfterSend | src/roq/proxy/fix/client/session.cpp:396-410 | defines sending with the next outbound sequence number; `SendKeepsNumbering` proves the numbering stays consecutive |
| ClientSessionModel.AfterMakeZombie | src/roq/proxy/fix/client/session.cpp:352-371 | defines `make_zombie`: report a held route, turn zombie, queue for removal; `ZombieQueued` proves it |
| ClientSessionModel.AfterClose | src/roq/proxy/fix/client/session.cpp:295-300 | defines `close`, which turns a live session zombie; `CloseOutsideReady` proves it forwards nothing |
| ClientSessionModel.AfterSendAndClose | src/roq/proxy/fix/client/session.cpp:373-379 | defines a send followed by a close; `SendAndCloseQueued` proves it |
| ClientSessionModel.AfterRejectAndClose | src/roq/proxy/fix/client/session.cpp:1087-1098 | defines a Reject followed by a close; `RejectAndCloseQueued` proves it |
| ClientSessionModel.AfterBusinessReject | src/roq/proxy/fix/client/session.cpp:1100-1114 | defines a BusinessMessageReject; `BusinessRejectKeepsInv` proves it keeps the invariant |
| ClientSessionModel.ProbeId | src/roq/proxy/fix/client/session.cpp:97 | the TestReqID of a heartbeat probe is the timer's nanosecond count followed by `ns`, as a duration is formatted; the fix session uses the same text (src/roq/proxy/fix/client/fix/session.cpp:85) |
| ClientSessionModel.ProbeIdInjective | src/roq/proxy/fix/client/session.cpp:97 | probes sent at different instants carry different TestReqIDs |
| ClientSessionModel.AfterTimer | src/roq/proxy/fix/client/session.cpp:68-120 | defines the timer: logon and user response timeouts close, a READY session probes with TestReqID `<now>ns` and times out; `TimerKeepsInv` proves it keeps the invariant |
| ClientSessionModel.AfterUserResponse | src/roq/proxy/fix/client/session.cpp:128-188 | defines the answer to the user request; `UserResponseKeepsInv` proves it keeps the invariant |
| ClientSessionModel.AfterEvent | src/roq/proxy/fix/client/session.cpp:190-279 | defines relaying an upstream event to a READY client only; `StepKeepsInv` proves it keeps the invariant |
| ClientSessionModel.AfterForceDisconnect | src/roq/proxy/fix/client/session.cpp:281-293 | defines closing a session that is not a zombie; `StepKeepsInv` proves it keeps the invariant |
| ClientSessionModel.AfterCheck | src/roq/proxy/fix/client/session.cpp:412-433 | defines adopting the inbound sequence number; `ParseKeepsInv` proves the handling of a message keeps the invariant |
| ClientSessionModel.AdoptCompId | src/roq/proxy/fix/client/session.cpp:437-438 | defines the first message fixing the client's comp id; `ParseKeepsInv` proves the handling of a message keeps the invariant |
| ClientSessionModel.AfterTestRequest | src/roq/proxy/fix/client/session.cpp:523-544 | defines the TestRequest handler; `TestRequestKeepsInv` proves it keeps the invariant |
| ClientSessionModel.AfterResendRequest | src/roq/proxy/fix/client/session.cpp:546-565 | defines the ResendRequest handler; `ResendRequestKeepsInv` proves it keeps the invariant |
| ClientSessionModel.AfterHeartbeat | src/roq/proxy/fix/client/session.cpp:573-590 | defines the Heartbeat handler; `HeartbeatKeepsInv` proves it keeps the invariant |
| ClientSessionModel.AfterLogon | src/roq/proxy/fix/client/session.cpp:596-649 | defines the Logon handler; `LogonKeepsInv` and `LogonOutsideReady` prove it keeps the invariant and forwards no request |
| ClientSessionModel.AfterLogout | src/roq/proxy/fix/client/session.cpp:651-683 | defines the Logout handler; `LogoutKeepsInv` proves it keeps the invariant |
| ClientSessionModel.AfterRequest | src/roq/proxy/fix/client/session.cpp:694-1083 | defines the business request handler; `RequestKeepsInv` and `ReadyRequest` prove it keeps the invariant and forwards only from READY |
| ClientSessionModel.AfterAdministrative | src/roq/proxy/fix/client/session.cpp:442-460 | defines the dispatch of session and authentication messages; `AdministrativeKeepsInv` proves it keeps the invariant |
| ClientSessionModel.AfterApplication | src/roq/proxy/fix/client/session.cpp:462-511 | defines the dispatch of application messages; `ApplicationKeepsInv` proves it keeps the invariant |
| ClientSessionModel.AfterParse | src/roq/proxy/fix/client/session.cpp:435-513 | defines the dispatch of a decoded message; `ParseKeepsInv` proves it keeps the invariant |
| ClientSessionModel.AfterRead | src/roq/proxy/fix/client/session.cpp:304-344 | defines the read handler over the buffer; `DrainKeepsInv` and `ReadOutsideReady` prove it keeps the invariant and forwards only from READY |
| ClientSessionModel.HeartBtInt | src/roq/proxy/fix/client/session.cpp:139-142 | the HeartBtInt announced in the Logon reply is the configured heartbeat in seconds, truncated to 16 bits |
| ClientSessionModel.Classify | src/roq/proxy/fix/client/session.cpp:412-433 | a sequence number is in sequence exactly when it is one more than the previous one, a gap when it is larger and a replay otherwise, with the distance the warning reports |
| ClientSessionModel.FirstInvalid | src/roq/proxy/fix/client/session.cpp:694-1083 | no id fails validation exactly when every id a request carries is valid; otherwise the one reported is the first invalid one |
| ClientSessionModel.AddPartyIds | src/roq/proxy/fix/client/session.cpp:1116-1133 | a request is forwarded exactly when it carries no party ids, and then it carries the single CLIENT_ID party of the session's strategy and is otherwise unchanged |
| ClientSessionModel.Drain | src/roq/proxy/fix/client/session.cpp:320-329 | the read loop never consumes more bytes than the buffer holds |
| ClientSessionModel.DrainDecoded | src/roq/proxy/fix/client/session.cpp:320-329 | a decoded frame is checked, parsed, then the loop carries on after the bytes it used |
| ClientSessionModel.SendKeepsNumbering | src/roq/proxy/fix/client/session.cpp:396-410 | every send numbers the outgoing message one past the last, so the messages sent are numbered 1, 2, 3, ... |
| ClientSessionModel.ZombieQueued | src/roq/proxy/fix/client/session.cpp:352-371 | whatever the state, a session made zombie or closed ends unbound in the registry and queued for removal |
| ClientSessionModel.SendAndCloseQueued | src/roq/proxy/fix/client/session.cpp:373-379 | sending then closing keeps the session invariant |
| ClientSessionModel.RejectAndCloseQueued | src/roq/proxy/fix/client/session.cpp:1087-1098 | sending a Reject then closing keeps the session invariant |
| ClientSessionModel.BusinessRejectKeepsInv | src/roq/proxy/fix/client/session.cpp:1100-1114 | a BusinessMessageReject keeps the session invariant |
| ClientSessionModel.TimerKeepsInv | src/roq/proxy/fix/client/session.cpp:68-120 | the timer keeps the invariant: the registry binds this session exactly while it holds a route, messages stay numbered, a zombie is unbound and queued |
| ClientSessionModel.UserResponseKeepsInv | src/roq/proxy/fix/client/session.cpp:128-188 | a UserResponse from the controller keeps the invariant |
| ClientSessionModel.LogonKeepsInv | src/roq/proxy/fix/client/session.cpp:596-649 | a Logon keeps the invariant in every state and on every outcome of the registry |
| ClientSessionModel.LogoutKeepsInv | src/roq/proxy/fix/client/session.cpp:651-683 | a Logout keeps the invariant |
| ClientSessionModel.RequestKeepsInv | src/roq/proxy/fix/client/session.cpp:694-1083 | every request handler keeps the invariant |
| ClientSessionModel.ReadyRequestKeepsInv | src/roq/proxy/fix/client/session.cpp:875-888 | a request handled while READY keeps the invariant |
| ClientSessionModel.TestRequestKeepsInv | src/roq/proxy/fix/client/session.cpp:523-544 | a TestRequest keeps the invariant |
| ClientSessionModel.ResendRequestKeepsInv | src/roq/proxy/fix/client/session.cpp:546-565 | a ResendRequest keeps the invariant |
| ClientSessionModel.HeartbeatKeepsInv | src/roq/proxy/fix/client/session.cpp:573-590 | a Heartbeat keeps the invariant |
| ClientSessionModel.ParseKeepsInv | src/roq/proxy/fix/client/session.cpp:435-513 | dispatching any decoded message keeps the invariant |
| ClientSessionModel.AdministrativeKeepsInv | src/roq/proxy/fix/client/session.cpp:442-460 | the session and authentication messages keep the invariant |
| ClientSessionModel.ApplicationKeepsInv | src/roq/proxy/fix/client/session.cpp:462-511 | the market data, order and unknown messages keep the invariant |
| ClientSessionModel.DrainKeepsInv | src/roq/proxy/fix/client/session.cpp:304-344 | the whole read loop keeps the invariant, however many frames it handles |
| ClientSessionModel.StepKeepsInv | src/roq/proxy/fix/client/session.cpp:68-371 | every event a session can receive (timer, user response, upstream event, read, disconnect, forced disconnect) keeps the invariant |
| ClientSessionModel.AcceptedInv | src/roq/proxy/fix/client/session.cpp:59-63 | a newly accepted session waits for a logon and satisfies the invariant |
| ClientSessionModel.ZombieIsFinal | src/roq/proxy/fix/client/session.cpp:352-371 | a zombie stays a zombie whatever it receives, and sends nothing, calls nothing and leaves the registry alone |
| ClientSessionModel.CloseOutsideReady | src/roq/proxy/fix/client/session.cpp:295-300 | closing or turning zombie leaves the session outside READY and forwards nothing |
| ClientSessionModel.RejectAndCloseOutsideReady | src/roq/proxy/fix/client/session.cpp:1087-1098 | a Reject-and-close leaves the session outside READY and forwards nothing |
| ClientSessionModel.LogonOutsideReady | src/roq/proxy/fix/client/session.cpp:596-649 | a Logon never makes a session READY (only the UserResponse does) and forwards nothing |
| ClientSessionModel.ParseOutsideReady | src/roq/proxy/fix/client/session.cpp:435-513 | outside READY, no decoded message makes the session READY or forwards a request |
| ClientSessionModel.AdministrativeOutsideReady | src/roq/proxy/fix/client/session.cpp:442-460 | outside READY, no session or authentication message makes the session READY or forwards a request |
| ClientSessionModel.ApplicationOutsideReady | src/roq/proxy/fix/client/session.cpp:462-511 | outside READY, no application message is forwarded |
| ClientSessionModel.DrainOutsideReady | src/roq/proxy/fix/client/session.cpp:320-329 | outside READY, the read loop neither makes the session READY nor forwards a request |
| ClientSessionModel.TimerUpcalls | src/roq/proxy/fix/client/session.cpp:68-120 | outside READY the timer calls the controller at most once, to report the disconnect |
| ClientSessionModel.UserResponseUpcalls | src/roq/proxy/fix/client/session.cpp:128-188 | a UserResponse calls the controller at most once, to report the disconnect |
| ClientSessionModel.ReadOutsideReady | src/roq/proxy/fix/client/session.cpp:304-344 | outside READY, reading from the connection forwards no request |
| ClientSessionModel.ForwardOnlyWhenReady | src/roq/proxy/fix/client/session.cpp:694-1083 | a session that is not READY forwards no request to the controller, whatever event it handles |
| ClientSessionModel.ReadyRequest | src/roq/proxy/fix/client/session.cpp:868-895 | while READY a request whose ids are valid and which carries no party ids is forwarded (with the session's party added where the request has parties) and nothing is sent; otherwise a BusinessMessageReject naming the request's sequence number is sent and nothing is forwarded |
| ClientSessionModel.LogonTimeoutCloses | src/roq/proxy/fix/client/session.cpp:71-75 | a session still waiting for a logon after the logon timeout is closed, silently, and queued for removal |
| ClientSessionModel.MissingHeartbeatCloses | src/roq/proxy/fix/client/session.cpp:87-104 | when the heartbeat is due a READY session sends a TestRequest with TestReqID `<now>ns`; if no Heartbeat arrives before the next one is due it sends a Logout "MISSING HEARTBEAT", closes and reports the disconnect |
| ClientSessionModel.HeartbeatKeepsAlive | src/roq/proxy/fix/client/session.cpp:573-590 | a Heartbeat clears the wait, so the next due timer sends a new TestRequest instead of closing |
| ClientSessionModel.RouteLifecycle | src/roq/proxy/fix/client/session.cpp:596-683 | logon, LOGGED_IN, logout and NOT_LOGGED_IN walk the session through all five states, send exactly the Logon reply and the goodbye Logout, make the LOG_ON_USER and LOG_OFF_USER requests with successive request ids, and leave the registry bound as before with the session queued for removal |
| ClientSession.Session.constructor | src/roq/proxy/fix/client/session.cpp:59-63 | a new session is the accepted model: waiting for a logon with the configured timeout, bound to nothing |
| ClientSession.Session.Send | src/roq/proxy/fix/client/session.cpp:396-410 | appends the message with the next outbound sequence number |
| ClientSession.Session.MakeZombie | src/roq/proxy/fix/client/session.cpp:352-371 | reports the disconnect when the session held a route, becomes zombie and queues itself for removal; a zombie is left alone |
| ClientSession.Session.Close | src/roq/proxy/fix/client/session.cpp:295-300 | closes the connection and becomes zombie, unless already a zombie |
| ClientSession.Session.SendAndClose | src/roq/proxy/fix/client/session.cpp:373-379 | sends the message, then closes |
| ClientSession.Session.SendRejectAndClose | src/roq/proxy/fix/client/session.cpp:1087-1098 | sends a Reject naming the offending message's sequence number and type, then closes |
| ClientSession.Session.SendBusinessMessageReject | src/roq/proxy/fix/client/session.cpp:1100-1114 | sends a BusinessMessageReject naming the offending message, the reference id and the reason |
| ClientSession.Session.OnTimer | src/roq/proxy/fix/client/session.cpp:68-120 | moves the session as the timer function says (logon timeout, user response timeout, heartbeat probe with TestReqID `<now>ns`) and keeps the invariant |
| ClientSession.Session.OnUserResponse | src/roq/proxy/fix/client/session.cpp:128-188 | moves the session as the user response function says and keeps the invariant |
| ClientSession.Session.OnEvent | src/roq/proxy/fix/client/session.cpp:190-279 | relays an upstream event to the client while READY and keeps the invariant |
| ClientSession.Session.ForceDisconnect | src/roq/proxy/fix/client/session.cpp:281-293 | closes a session that is not yet a zombie and keeps the invariant |
| ClientSession.Session.OnDisconnected | src/roq/proxy/fix/client/session.cpp:346-348 | turns the session zombie and keeps the invariant |
| ClientSession.Session.Check | src/roq/proxy/fix/client/session.cpp:412-433 | adopts the incoming sequence number and classifies it against the previous one |
| ClientSession.Session.OnTestRequest | src/roq/proxy/fix/client/session.cpp:523-544 | moves the session as the TestRequest function says and keeps the invariant |
| ClientSession.Session.OnResendRequest | src/roq/proxy/fix/client/session.cpp:546-565 | moves the session as the ResendRequest function says and keeps the invariant |
| ClientSession.Session.OnHeartbeat | src/roq/proxy/fix/client/session.cpp:573-590 | moves the session as the Heartbeat function says and keeps the invariant |
| ClientSession.Session.OnLogon | src/roq/proxy/fix/client/session.cpp:596-649 | moves the session as the Logon function says and keeps the invariant |
| ClientSession.Session.FirstLogon | src/roq/proxy/fix/client/session.cpp:601-638 | a Logon while waiting for one checks the target comp id, then logs on through the registry and requests the route, or rejects and closes |
| ClientSession.Session.RequestRoute | src/roq/proxy/fix/client/session.cpp:610-630 | records the user and party, makes the LOG_ON_USER request with a fresh request id and waits for the route, or rejects and closes when that call throws |
| ClientSession.Session.RegisterUser | src/roq/proxy/fix/client/session.cpp:611-623 | records the username and the strategy id as party id and makes the LOG_ON_USER request with a fresh request id |
| ClientSession.Session.OnLogout | src/roq/proxy/fix/client/session.cpp:651-683 | moves the session as the Logout function says and keeps the invariant |
| ClientSession.Session.OnRequest | src/roq/proxy/fix/client/session.cpp:694-1083 | moves the session as the request function says and keeps the invariant |
| ClientSession.Session.OnReject | src/roq/proxy/fix/client/session.cpp:567-571 | a Reject from the client closes the session |
| ClientSession.Session.RejectUnexpected | src/roq/proxy/fix/client/session.cpp:504-511 | an unknown message type is answered with a BusinessMessageReject UNSUPPORTED_MESSAGE_TYPE |
| ClientSession.Session.AdoptSenderCompId | src/roq/proxy/fix/client/session.cpp:437-438 | the first message's SenderCompID becomes the session's comp id |
| ClientSession.Session.Parse | src/roq/proxy/fix/client/session.cpp:435-513 | moves the session as the dispatch of the decoded message says and keeps the invariant |
| ClientSession.Session.ParseAdministrative | src/roq/proxy/fix/client/session.cpp:442-460 | dispatches a session or authentication message and keeps the invariant |
| ClientSession.Session.ParseApplication | src/roq/proxy/fix/client/session.cpp:462-511 | dispatches an application message and keeps the invariant |
| ClientSession.Session.OnRead | src/roq/proxy/fix/client/session.cpp:304-344 | ignores input as a zombie; otherwise drains the buffer as the read function says, closes on a decoding failure, and keeps the invariant |
| ClientSession.Session.DrainBuffer | src/roq/proxy/fix/client/session.cpp:320-329 | the loop over the buffer ends in the state the read loop function computes, with the bytes consumed and whether it failed |
| ClientSession.Session.ReadFrame | src/roq/proxy/fix/client/session.cpp:321-328 | one turn of the read loop advances past a decoded frame, or stops |
| ClientSession.Session.AdoptHeader | src/roq/proxy/fix/client/session.cpp:311-316 | a message whose body cannot be decoded still has its sequence number checked and its SenderCompID adopted before the decoder throws |
| ClientSession.Session.Handle | src/roq/proxy/fix/client/session.cpp:311-316 | each decoded message is checked, then parsed |
| ClientSession.Session.HandleMessage | src/roq/proxy/fix/client/session.cpp:321-326 | handles the decoded frame at the current position and advances past its bytes |
| ClientFixSessionModel.Accepted | src/roq/proxy/fix/client/fix/session.cpp:46-51 | defines the accepted session; `AcceptedInv` proves it satisfies the invariant |
| ClientFixSessionModel.AfterSend | src/roq/proxy/fix/client/fix/session.cpp:283-312 | defines sending with the next outbound sequence number; `SendKeepsNumbering` proves the numbering stays consecutive |
| ClientFixSessionModel.AfterMakeZombie | src/roq/proxy/fix/client/fix/session.cpp:253-273 | defines `make_zombie`: report a held user, turn zombie, queue for removal; `ZombieQueued` and `MakeZombieReports` prove it |
| ClientFixSessionModel.AfterClose | src/roq/proxy/fix/client/fix/session.cpp:199-204 | defines `close`, which turns a live session zombie; `StepKeepsInv` proves it keeps the invariant |
| ClientFixSessionModel.AfterSendAndClose | src/roq/proxy/fix/client/fix/session.cpp:275-281 | defines a send followed by a close; `SendAndCloseQueued` proves it |
| ClientFixSessionModel.AfterSendReject | src/roq/proxy/fix/client/fix/session.cpp:747-758 | defines a Reject followed by a close; `SendRejectQueued` and `SendRejectSendsThenCloses` prove it |
| ClientFixSessionModel.AfterBusinessReject | src/roq/proxy/fix/client/fix/session.cpp:760-773 | defines a BusinessMessageReject; `BusinessRejectKeepsInv` proves it keeps the invariant |
| ClientFixSessionModel.AfterUnexpected | src/roq/proxy/fix/client/fix/session.cpp:402-405 | defines the BusinessMessageReject UNSUPPORTED_MESSAGE_TYPE for a type the session does not serve; `UnsupportedAlwaysRejected` proves where it is reached |
| ClientFixSessionModel.AfterTimer | src/roq/proxy/fix/client/fix/session.cpp:56-97 | defines the timer, whose heartbeat probe carries TestReqID `<now>ns`; `TimerKeepsInv` and `CreateRouteTimeoutCloses` prove it keeps the invariant and closes on a timeout |
| ClientFixSessionModel.AfterUserResponse | src/roq/proxy/fix/client/fix/session.cpp:105-128 | defines the answer to LOG_ON_USER, fatal outside WAITING_USER_RESPONSE; `UserResponseOutcomes` and `UserResponseKeepsInv` prove it |
| ClientFixSessionModel.AfterEvent | src/roq/proxy/fix/client/fix/session.cpp:99-176 | defines relaying an upstream event to a READY client only; `EventKeepsInv` proves it keeps the invariant |
| ClientFixSessionModel.AfterForceDisconnect | src/roq/proxy/fix/client/fix/session.cpp:186-197 | defines closing a session that is not a zombie; `StepKeepsInv` proves it keeps the invariant |
| ClientFixSessionModel.AfterCheck | src/roq/proxy/fix/client/fix/session.cpp:314-335 | defines adopting the inbound sequence number; `ParseKeepsInv` proves the handling of a message keeps the invariant |
| ClientFixSessionModel.AfterTestRequest | src/roq/proxy/fix/client/fix/session.cpp:418-437 | defines the TestRequest handler; `TestRequestKeepsInv` proves it keeps the invariant |
| ClientFixSessionModel.AfterResendRequest | src/roq/proxy/fix/client/fix/session.cpp:439-456 | defines the ResendRequest handler; `ResendRequestOutcome` and `ResendRequestKeepsInv` prove it |
| ClientFixSessionModel.AfterHeartbeat | src/roq/proxy/fix/client/fix/session.cpp:464-479 | defines the Heartbeat handler; `HeartbeatKeepsInv` proves it keeps the invariant |
| ClientFixSessionModel.AfterLogon | src/roq/proxy/fix/client/fix/session.cpp:485-536 | defines the Logon handler; `LogonAwaitsUserResponse` and `LogonKeepsInv` prove it |
| ClientFixSessionModel.AfterLogOffUser | src/roq/proxy/fix/client/fix/session.cpp:547-569 | defines a READY client logging out; `ReadyLogout` and `LogOffUserKeepsInv` prove it |
| ClientFixSessionModel.AfterLogout | src/roq/proxy/fix/client/fix/session.cpp:538-573 | defines the Logout handler; `LogoutKeepsInv` proves it keeps the invariant |
| ClientFixSessionModel.AfterRequest | src/roq/proxy/fix/client/fix/session.cpp:575-745 | defines the business request handler; `RequestGating` and `RequestKeepsInv` prove it |
| ClientFixSessionModel.AfterAdministrative | src/roq/proxy/fix/client/fix/session.cpp:341-360 | defines the dispatch of session and authentication messages; `ParseKeepsInv` proves it keeps the invariant |
| ClientFixSessionModel.AfterApplication | src/roq/proxy/fix/client/fix/session.cpp:361-406 | defines the dispatch of application messages, TradeCaptureReportRequest taking the default branch; `TradeCaptureReportRequestFallsToDefault` proves it |
| ClientFixSessionModel.AfterParse | src/roq/proxy/fix/client/fix/session.cpp:337-408 | defines the dispatch of a decoded message; `ParseKeepsInv` proves it keeps the invariant |
| ClientFixSessionModel.AfterRead | src/roq/proxy/fix/client/fix/session.cpp:208-245 | defines the read handler over the buffer; `DrainKeepsInv` proves it keeps the invariant |
| ClientFixSessionModel.Drain | src/roq/proxy/fix/client/fix/session.cpp:224-233 | the read loop never consumes more bytes than the buffer holds |
| ClientFixSessionModel.SendKeepsNumbering | src/roq/proxy/fix/client/fix/session.cpp:298-312 | every send numbers the outgoing message one past the last |
| ClientFixSessionModel.ZombieQueued | src/roq/proxy/fix/client/fix/session.cpp:253-273 | whatever the state, a session made zombie or closed ends unbound and queued for removal |
| ClientFixSessionModel.SendAndCloseQueued | src/roq/proxy/fix/client/fix/session.cpp:275-281 | sending then closing keeps the session invariant |
| ClientFixSessionModel.SendRejectQueued | src/roq/proxy/fix/client/fix/session.cpp:747-758 | in this variant every Reject closes the session, and that keeps the invariant |
| ClientFixSessionModel.BusinessRejectKeepsInv | src/roq/proxy/fix/client/fix/session.cpp:760-773 | a BusinessMessageReject keeps the invariant |
| ClientFixSessionModel.TimerKeepsInv | src/roq/proxy/fix/client/fix/session.cpp:56-97 | the timer keeps the invariant: the registry binds the session exactly while it waits for the user response or is READY, messages stay numbered, a zombie is unbound and queued |
| ClientFixSessionModel.UserResponseKeepsInv | src/roq/proxy/fix/client/fix/session.cpp:105-128 | every UserResponse that does not abort the process keeps the invariant |
| ClientFixSessionModel.EventKeepsInv | src/roq/proxy/fix/client/fix/session.cpp:99-176 | relaying an upstream event keeps the invariant |
| ClientFixSessionModel.TestRequestKeepsInv | src/roq/proxy/fix/client/fix/session.cpp:418-437 | a TestRequest keeps the invariant |
| ClientFixSessionModel.ResendRequestKeepsInv | src/roq/proxy/fix/client/fix/session.cpp:439-456 | a ResendRequest keeps the invariant |
| ClientFixSessionModel.HeartbeatKeepsInv | src/roq/proxy/fix/client/fix/session.cpp:464-479 | a Heartbeat keeps the invariant |
| ClientFixSessionModel.LogonKeepsInv | src/roq/proxy/fix/client/fix/session.cpp:485-536 | a Logon keeps the invariant in every state and on every outcome of the registry |
| ClientFixSessionModel.LogOffUserKeepsInv | src/roq/proxy/fix/client/fix/session.cpp:547-569 | the READY branch of Logout keeps the invariant |
| ClientFixSessionModel.LogoutKeepsInv | src/roq/proxy/fix/client/fix/session.cpp:538-573 | a Logout keeps the invariant |
| ClientFixSessionModel.RequestKeepsInv | src/roq/proxy/fix/client/fix/session.cpp:575-745 | every request handler keeps the invariant |
| ClientFixSessionModel.ParseKeepsInv | src/roq/proxy/fix/client/fix/session.cpp:337-408 | dispatching any decoded message keeps the invariant |
| ClientFixSessionModel.ResumeDecoded | src/roq/proxy/fix/client/fix/session.cpp:224-233 | a decoded frame is checked and parsed, then the loop carries on after its bytes |
| ClientFixSessionModel.ResumeStops | src/roq/proxy/fix/client/fix/session.cpp:224-227 | the loop stops at an incomplete frame, and at a frame that fails to decode after its header was checked |
| ClientFixSessionModel.ResumeEnds | src/roq/proxy/fix/client/fix/session.cpp:224-233 | the loop ends at the end of the buffer or once the session is a zombie |
| ClientFixSessionModel.DrainKeepsInv | src/roq/proxy/fix/client/fix/session.cpp:208-245 | the whole read loop keeps the invariant |
| ClientFixSessionModel.StepKeepsInv | src/roq/proxy/fix/client/fix/session.cpp:56-249 | every event the session can receive keeps the invariant, unless the process aborts |
| ClientFixSessionModel.AcceptedInv | src/roq/proxy/fix/client/fix/session.cpp:46-51 | a newly accepted session waits for a logon and satisfies the invariant |
| ClientFixSessionModel.ZombieIsFinal | src/roq/proxy/fix/client/fix/session.cpp:94-128 | a zombie stays a zombie and sends, calls and changes nothing; the one event that aborts the process there is a LOGGED_IN UserResponse |
| ClientFixSessionModel.LogonAwaitsUserResponse | src/roq/proxy/fix/client/fix/session.cpp:485-536 | a good Logon binds the user, makes the LOG_ON_USER request carrying the username and waits for the user response; only the LOGGED_IN response sends the Logon reply and makes the session READY |
| ClientFixSessionModel.UserResponseOutcomes | src/roq/proxy/fix/client/fix/session.cpp:105-128 | any status but LOGGED_IN turns the session zombie and queues it; LOGGED_IN is accepted exactly while waiting for it, and then the session is READY |
| ClientFixSessionModel.ReadyLogout | src/roq/proxy/fix/client/fix/session.cpp:547-569 | a Logout while READY makes the LOG_OFF_USER request, unbinds the user, sends the goodbye Logout and closes, and the disconnect it reports carries the already-cleared (empty) username |
| ClientFixSessionModel.ResendRequestOutcome | src/roq/proxy/fix/client/fix/session.cpp:439-456 | a ResendRequest is answered with a BusinessMessageReject while READY and with a Reject "NO LOGON" and a close before |
| ClientFixSessionModel.UnsupportedAlwaysRejected | src/roq/proxy/fix/client/fix/session.cpp:726-745 | OrderMassCancelRequest, TradeCaptureReportRequest and RequestForPositions are answered with a BusinessMessageReject UNSUPPORTED_MESSAGE_TYPE in every state, and nothing else changes |
| ClientFixSessionModel.TradeCaptureReportRequestFallsToDefault | src/roq/proxy/fix/client/fix/session.cpp:396-406 | a TradeCaptureReportRequest is handled exactly like a message of unknown type |
| ClientFixSessionModel.SendRejectSendsThenCloses | src/roq/proxy/fix/client/fix/session.cpp:747-758 | a Reject names the offending message's sequence number and type, is the last message sent, and the session is then a zombie |
| ClientFixSessionModel.MakeZombieReports | src/roq/proxy/fix/client/fix/session.cpp:253-273 | turning zombie reports the disconnect, with the username, exactly from WAITING_USER_RESPONSE and READY, and queues the session; a zombie is left as it is |
| ClientFixSessionModel.RequestGating | src/roq/proxy/fix/client/fix/session.cpp:582-724 | before READY every supported request is answered with Reject "NO LOGON" and a close; while READY it is forwarded under the username, order requests with the session's party added when they carry none, and rejected with UNSUPPORTED PARTY_IDS when they carry some |
| ClientFixSessionModel.CreateRouteTimeoutCloses | src/roq/proxy/fix/client/fix/session.cpp:65-74 | a user response that does not arrive in time sends a Logout "CREATE_ROUTE_TIMEOUT", closes and reports the disconnect |
| ClientFixSession.Session.constructor | src/roq/proxy/fix/client/fix/session.cpp:46-51 | a new session is the accepted model |
| ClientFixSession.Session.Send | src/roq/proxy/fix/client/fix/session.cpp:283-312 | appends the message with the next outbound sequence number |
| ClientFixSession.Session.MakeZombie | src/roq/proxy/fix/client/fix/session.cpp:253-273 | moves the session as the zombie function says |
| ClientFixSession.Session.Close | src/roq/proxy/fix/client/fix/session.cpp:199-204 | closes the connection and turns zombie, unless already a zombie |
| ClientFixSession.Session.SendAndClose | src/roq/proxy/fix/client/fix/session.cpp:275-281 | sends the message, then closes |
| ClientFixSession.Session.SendReject | src/roq/proxy/fix/client/fix/session.cpp:747-758 | sends a Reject naming the offending message, then closes |
| ClientFixSession.Session.SendBusinessMessageReject | src/roq/proxy/fix/client/fix/session.cpp:760-773 | sends a BusinessMessageReject naming the offending message and the reason, with no reference id |
| ClientFixSession.Session.OnTimer | src/roq/proxy/fix/client/fix/session.cpp:56-97 | moves the session as the timer function says and keeps the invariant |
| ClientFixSession.Session.Watchdog | src/roq/proxy/fix/client/fix/session.cpp:75-93 | the READY branch of the timer: a TestRequest with TestReqID `<now>ns` when a heartbeat is due, a Logout and a close when the previous one went unanswered |
| ClientFixSession.Session.OnUserResponse | src/roq/proxy/fix/client/fix/session.cpp:105-128 | reports an abort exactly when the user response function has no successor state, and otherwise moves the session to it and keeps the invariant |
| ClientFixSession.Session.OnEvent | src/roq/proxy/fix/client/fix/session.cpp:99-176 | relays an upstream event to the client while READY |
| ClientFixSession.Session.ForceDisconnect | src/roq/proxy/fix/client/fix/session.cpp:186-197 | closes a session that is not yet a zombie |
| ClientFixSession.Session.OnDisconnected | src/roq/proxy/fix/client/fix/session.cpp:247-249 | turns the session zombie and keeps the invariant |
| ClientFixSession.Session.Check | src/roq/proxy/fix/client/fix/session.cpp:314-335 | adopts the incoming sequence number and classifies it against the previous one |
| ClientFixSession.Session.OnTestRequest | src/roq/proxy/fix/client/fix/session.cpp:418-437 | moves the session as the TestRequest function says and keeps the invariant |
| ClientFixSession.Session.OnResendRequest | src/roq/proxy/fix/client/fix/session.cpp:439-456 | moves the session as the ResendRequest function says and keeps the invariant |
| ClientFixSession.Session.OnHeartbeat | src/roq/proxy/fix/client/fix/session.cpp:464-479 | moves the session as the Heartbeat function says and keeps the invariant |
| ClientFixSession.Session.OnReject | src/roq/proxy/fix/client/fix/session.cpp:458-462 | a Reject from the client closes the session |
| ClientFixSession.Session.OnLogon | src/roq/proxy/fix/client/fix/session.cpp:485-536 | moves the session as the Logon function says and keeps the invariant |
| ClientFixSession.Session.FirstLogon | src/roq/proxy/fix/client/fix/session.cpp:490-528 | a Logon while waiting for one checks the target comp id, then logs on through the registry and asks for the user, or rejects and closes |
| ClientFixSession.Session.RequestUser | src/roq/proxy/fix/client/fix/session.cpp:499-520 | records the user and party, makes the LOG_ON_USER request with a fresh request id and waits for the user response, or rejects and closes when that call throws |
| ClientFixSession.Session.Announce | src/roq/proxy/fix/client/fix/session.cpp:500-513 | records the user and party and makes the LOG_ON_USER request, carrying the username, with a fresh request id |
| ClientFixSession.Session.OnLogout | src/roq/proxy/fix/client/fix/session.cpp:538-573 | moves the session as the Logout function says and keeps the invariant |
| ClientFixSession.Session.LeaveReady | src/roq/proxy/fix/client/fix/session.cpp:547-569 | the READY branch of Logout, as its model function says |
| ClientFixSession.Session.OnRequest | src/roq/proxy/fix/client/fix/session.cpp:575-745 | moves the session as the request function says and keeps the invariant |
| ClientFixSession.Session.Parse | src/roq/proxy/fix/client/fix/session.cpp:337-408 | dispatches a decoded message and keeps the invariant |
| ClientFixSession.Session.ParseAdministrative | src/roq/proxy/fix/client/fix/session.cpp:341-360 | dispatches a session or authentication message and keeps the invariant |
| ClientFixSession.Session.ParseApplication | src/roq/proxy/fix/client/fix/session.cpp:361-406 | dispatches an application message and keeps the invariant |
| ClientFixSession.Session.OnRead | src/roq/proxy/fix/client/fix/session.cpp:208-245 | ignores input as a zombie; otherwise drains the buffer as the read function says, closes on a decoding failure, and keeps the invariant |
| ClientFixSession.Session.DrainBuffer | src/roq/proxy/fix/client/fix/session.cpp:224-233 | the loop over the buffer ends in the state the read loop function computes |
| ClientFixSession.Session.ReadFrame | src/roq/proxy/fix/client/fix/session.cpp:225-232 | one turn of the read loop advances past a decoded frame, or stops |
| ClientFixSession.Session.StopAt | src/roq/proxy/fix/client/fix/session.cpp:225-227 | at a frame that is not decoded the loop stops, after checking the header of a frame whose body failed |
| ClientFixSession.Session.Handle | src/roq/proxy/fix/client/fix/session.cpp:215-220 | each decoded message is checked, then parsed |
| ClientFixSession.Session.HandleMessage | src/roq/proxy/fix/client/fix/session.cpp:225-230 | handles the decoded frame at the current position and advances past its bytes |
| ServerSessionModel.AfterSend | src/roq/proxy/fix/server/session.cpp:412-427 | defines sending with the next outbound sequence number; `SendKeepsInv` proves it keeps the invariant |
| ServerSessionModel.SendExternal | src/roq/proxy/fix/server/session.cpp:399-410 | defines writing a client request only when READY; `SendExternalGated` proves it |
| ServerSessionModel.AfterConnected | src/roq/proxy/fix/server/session.cpp:141-145 | defines the logon with a sequence reset on connect; `ConnectedLogsOn` proves it |
| ServerSessionModel.AfterDisconnected | src/roq/proxy/fix/server/session.cpp:147-154 | defines forgetting the connection; `DisconnectedResets` and `ReconnectStartsOver` prove it |
| ServerSessionModel.AfterTimer | src/roq/proxy/fix/server/session.cpp:88-97 | defines the heartbeat timer; `TimerIdleUntilLoggedOn` and `TimerProbes` prove it |
| ServerSessionModel.AfterCheck | src/roq/proxy/fix/server/session.cpp:191-212 | defines adopting the inbound sequence number; `CheckAdopts` proves it |
| ServerSessionModel.AfterItem | src/roq/proxy/fix/server/session.cpp:346-359 | defines one SecurityList entry: a filtered instrument is recorded and requested; `ItemKeepsInv` and `ItemRequests` prove it |
| ServerSessionModel.AfterSecurityList | src/roq/proxy/fix/server/session.cpp:346-359 | defines a SecurityList; `SecurityListRecords` and `SecurityListRequests` prove what is recorded and requested |
| ServerSessionModel.AfterEvent | src/roq/proxy/fix/server/session.cpp:340-395 | defines relaying an upstream event to the controller; `EventsRelayed` proves it |
| ServerSessionModel.AfterParse | src/roq/proxy/fix/server/session.cpp:214-294 | defines the dispatch on message type; `LogonDownloadsSecurityList`, `TestRequestAnswered` and `LogoutIgnored` prove its branches |
| ServerSessionModel.AfterMessage | src/roq/proxy/fix/server/session.cpp:165-184 | defines handling one decoded message; `MessageKeepsInv` proves it keeps the invariant |
| ServerSessionModel.Rank | src/roq/proxy/fix/server/session.hpp:233-238 | the states are ordered DISCONNECTED < LOGON_SENT < GET_SECURITY_LIST < READY, with DISCONNECTED first and READY last |
| ServerSessionModel.HeartBtInt | src/roq/proxy/fix/server/session.cpp:429-441 | the HeartBtInt of the upstream Logon is the ping frequency in seconds, truncated to 16 bits |
| ServerSessionModel.Resume | src/roq/proxy/fix/server/session.cpp:163-185 | the read loop consumes between what it had already consumed and the whole buffer |
| ServerSessionModel.InitialInv | src/roq/proxy/fix/server/session.hpp:233-241 | a new session is DISCONNECTED and satisfies the invariant (messages numbered from 1, only included symbols listed) |
| ServerSessionModel.SendKeepsInv | src/roq/proxy/fix/server/session.cpp:412-427 | every message sent gets the next outbound sequence number |
| ServerSessionModel.SendExternalGated | src/roq/proxy/fix/server/session.cpp:399-410 | a client request goes upstream exactly when the session is READY (otherwise NotReady is thrown) and is then the next numbered message, with nothing else changed |
| ServerSessionModel.ConnectedLogsOn | src/roq/proxy/fix/server/session.cpp:141-145 | on connecting the session sends a Logon with ResetSeqNumFlag, the next expected sequence number and the configured credentials, and waits in LOGON_SENT |
| ServerSessionModel.DisconnectedResets | src/roq/proxy/fix/server/session.cpp:147-154 | a disconnect resets both sequence numbers and the heartbeat time, forgets every listed symbol and goes to DISCONNECTED |
| ServerSessionModel.ReconnectStartsOver | src/roq/proxy/fix/server/session.cpp:141-154 | after a disconnect and a reconnect the only message sent is a Logon numbered 1 that expects sequence number 1 |
| ServerSessionModel.TimerIdleUntilLoggedOn | src/roq/proxy/fix/server/session.cpp:88-92 | the timer does nothing before the session has logged on |
| ServerSessionModel.TimerProbes | src/roq/proxy/fix/server/session.cpp:88-97 | once logged on, the timer sends a TestRequest carrying the time and moves the next heartbeat on by the ping frequency when it is due, and does nothing otherwise |
| ServerSessionModel.CheckAdopts | src/roq/proxy/fix/server/session.cpp:191-212 | checking a header adopts its sequence number and changes nothing else |
| ServerSessionModel.LogonDownloadsSecurityList | src/roq/proxy/fix/server/session.cpp:313-318 | the upstream Logon answer triggers a SecurityListRequest "test" and moves to GET_SECURITY_LIST |
| ServerSessionModel.TestRequestAnswered | src/roq/proxy/fix/server/session.cpp:334-338 | an upstream TestRequest is answered with a Heartbeat echoing its TestReqID |
| ServerSessionModel.LogoutIgnored | src/roq/proxy/fix/server/session.cpp:234-238 | an upstream Logout is decoded as a Heartbeat, so the mandated Logout answer is never sent and only the sequence number moves |
| ServerSessionModel.EventsRelayed | src/roq/proxy/fix/server/session.cpp:340-395 | business rejects, security definitions, cancel rejects and execution reports (and market data in the current version) are handed to the controller, under the session's username except security definitions; every other event changes nothing |
| ServerSessionModel.ItemKeepsInv | src/roq/proxy/fix/server/session.cpp:350-357 | one security list entry is listed exactly when its symbol is included |
| ServerSessionModel.SecurityListRecords | src/roq/proxy/fix/server/session.cpp:346-359 | after the security list, the listed symbols are exactly those before plus the included entries, and the session is READY |
| ServerSessionModel.ItemRequests | src/roq/proxy/fix/server/session.cpp:350-357 | an entry whose symbol is included is followed by a SecurityDefinitionRequest for it and, when market data is requested, a MarketDataRequest for it; an excluded one sends nothing |
| ServerSessionModel.SecurityListRequests | src/roq/proxy/fix/server/session.cpp:346-359 | every included entry of the list has its definition requested (and its market data where enabled), and every message sent is one of those requests |
| ServerSessionModel.MessageKeepsInv | src/roq/proxy/fix/server/session.cpp:214-294 | handling any upstream message keeps the invariant |
| ServerSessionModel.ResumeKeepsInv | src/roq/proxy/fix/server/session.cpp:156-187 | the whole read loop keeps the invariant |
| ServerSessionModel.Handshake | src/roq/proxy/fix/server/session.cpp:141-359 | connect, Logon answer and SecurityList leave the session READY having sent exactly the Logon and the SecurityListRequest first, with the included symbols of the list recorded |
| ServerSession.Session.constructor | src/roq/proxy/fix/server/session.cpp:63-78 | a new session is the initial model |
| ServerSession.Session.IsReady | src/roq/proxy/fix/server/session.cpp:99-101 | the session is ready exactly in the last state |
| ServerSession.Session.SendInternal | src/roq/proxy/fix/server/session.cpp:412-427 | sends a session message with the next sequence number |
| ServerSession.Session.Send | src/roq/proxy/fix/server/session.cpp:399-410 | reports NotReady and changes nothing exactly when the session is not READY, and otherwise sends the request |
| ServerSession.Session.OnConnected | src/roq/proxy/fix/server/session.cpp:141-145 | moves the session as the connect function says and keeps the invariant |
| ServerSession.Session.OnDisconnected | src/roq/proxy/fix/server/session.cpp:147-154 | moves the session as the disconnect function says and keeps the invariant |
| ServerSession.Session.OnTimer | src/roq/proxy/fix/server/session.cpp:88-97 | moves the session as the timer function says and keeps the invariant |
| ServerSession.Session.Check | src/roq/proxy/fix/server/session.cpp:191-212 | adopts the incoming sequence number |
| ServerSession.Session.OnSecurityList | src/roq/proxy/fix/server/session.cpp:346-359 | the loop over the list records and requests as the security list function says, then the session is READY |
| ServerSession.Session.OnEvent | src/roq/proxy/fix/server/session.cpp:340-395 | relays an upstream event as the event function says |
| ServerSession.Session.Parse | src/roq/proxy/fix/server/session.cpp:214-294 | dispatches a decoded upstream message as the parse function says |
| ServerSession.Session.HandleMessage | src/roq/proxy/fix/server/session.cpp:165-184 | handles one decoded frame and advances past its bytes |
| ServerSession.Session.OnRead | src/roq/proxy/fix/server/session.cpp:156-187 | the read loop ends in the state the read function computes; it drains the bytes consumed, and nothing when a message could not be parsed |
| ProxyController.Touch | src/roq/proxy/fix/controller.cpp:172 | defines `operator[]` on the session table: an empty table for a session that had none; `TouchKeeps` proves no lookup changes |
| ProxyController.Subscribe | src/roq/proxy/fix/controller.cpp:171-182 | defines recording a subscription in both tables; `SubscribeRoutesBack`, `SubscribeKeepsConsistent` and `SubscribeKeepsFaithful` prove it routes both ways and keeps the tables consistent and faithful |
| ProxyController.ServerIds | src/roq/proxy/fix/controller.cpp:136-151 | defines the server ids of a session's table; `TargetsAreServerIds` proves the disconnect loop visits exactly them |
| ProxyController.Disconnect | src/roq/proxy/fix/controller.cpp:132-154 | defines the tables after a client disconnect: the session's server ids leave the reverse table; `DisconnectForgetsSession` proves no server id routes to that session afterwards |
| ProxyController.WithMdReqId | src/roq/proxy/fix/controller.cpp:88-120 | defines a market data event carrying another MDReqID; `RewriteRoundTrip` proves the rewrite keeps the message type and undoes itself |
| ProxyController.Deliver | src/roq/proxy/fix/controller.cpp:231-242 | defines `dispatch_to_client`: the event goes to the user's bound live session, or nowhere; `Recipient` states when there is one |
| ProxyController.Deliveries | src/roq/proxy/fix/controller.cpp:72-128 | defines what an upstream event delivers: market data only for a known server request id, rewritten to the client id; `DeliveredToBoundSession` and `MarketDataRewritten` prove it |
| ProxyController.Entries | src/roq/proxy/fix/controller.cpp:172-173 | the client-id to server-id table of a session is the recorded one, and empty for a session that never subscribed |
| ProxyController.Lookup | src/roq/proxy/fix/controller.cpp:245-252 | a server request id finds a route exactly when it is a key of the server-to-session table |
| ProxyController.UnsubscribeRequest | src/roq/proxy/fix/controller.cpp:137-148 | the request sent upstream for a dropped subscription is a market data request for the server id with subscription type UNSUBSCRIBE |
| ProxyController.Recipient | src/roq/proxy/fix/controller.cpp:232-242 | an upstream message for a user has a recipient exactly when the user is bound to a session and that session is still held by the client manager |
| ProxyController.RewriteRoundTrip | src/roq/proxy/fix/controller.cpp:88-120 | replacing the request id of a market data message keeps its message type and writing the old id back restores the message |
| ProxyController.DeliveredToBoundSession | src/roq/proxy/fix/controller.cpp:72-128 | every upstream message a server session relays reaches at most one client session, and only the live session bound to that username |
| ProxyController.MarketDataRewritten | src/roq/proxy/fix/controller.cpp:88-120 | market data for an unknown server request id is dropped; otherwise it is delivered carrying the client's own request id, and delivered exactly when the user has a live session |
| ProxyController.DeliveryIgnoresSubscriber | src/roq/proxy/fix/controller.cpp:90-95 | where market data goes depends on the username of the server session, not on the session that subscribed |
| ProxyController.TouchKeeps | src/roq/proxy/fix/controller.cpp:172 | creating an empty table for a session changes no lookup and keeps the tables consistent |
| ProxyController.SubscribeRoutesBack | src/roq/proxy/fix/controller.cpp:180-182 | after a subscription the server id routes back to the session and client id, that session's table gains the client id, and every other session's table is unchanged |
| ProxyController.SubscribeKeepsConsistent | src/roq/proxy/fix/controller.cpp:174-182 | every entry of a session table still has its reverse route after a subscription with a client id the session does not yet use |
| ProxyController.SubscribeKeepsFaithful | src/roq/proxy/fix/controller.cpp:180-182 | every reverse route still points at a matching forward entry after a subscription with an unused server id |
| ProxyController.FreshIdUnused | src/roq/proxy/fix/shared.cpp:115-118 | the next request id the counter issues is not used by any subscription |
| ProxyController.IssuedMonotone | src/roq/proxy/fix/shared.cpp:115-118 | ids issued below a counter value stay issued below any larger value |
| ProxyController.SubscribeKeepsIssued | src/roq/proxy/fix/controller.cpp:175-182 | recording a subscription under the freshly issued id keeps every server id among the ids issued so far |
| ProxyController.ForgetKeeps | src/roq/proxy/fix/controller.cpp:151 | erasing server ids from the reverse table keeps the tables consistent and faithful |
| ProxyController.DisconnectForgetsSession | src/roq/proxy/fix/controller.cpp:132-154 | after a client disconnect no server id routes to that session, every other session's routes remain, and the forward table is left as it was |
| ProxyController.Unsubscribes | src/roq/proxy/fix/controller.cpp:136-150 | one UNSUBSCRIBE per entry, in the order the entries are visited, each for that entry's server id |
| ProxyController.TargetsAreServerIds | src/roq/proxy/fix/controller.cpp:136-151 | the server ids visited while a session's table is walked are exactly the session's server ids |
| ProxyController.UnsubscribesCover | src/roq/proxy/fix/controller.cpp:136-150 | every subscription of the session is unsubscribed upstream, and nothing else is |
| ProxyController.Controller.constructor | src/roq/proxy/fix/controller.cpp:24-34 | a new controller starts with no subscriptions and nothing sent in either direction |
| ProxyController.Controller.DispatchToServer | src/roq/proxy/fix/controller.cpp:224-229 | a request goes to the server session of the username, and the missing session is the fatal path |
| ProxyController.Controller.DispatchToClient | src/roq/proxy/fix/controller.cpp:232-242 | a message is delivered exactly when the user's bound session is live, and success reports that |
| ProxyController.Controller.FindServerSubscription | src/roq/proxy/fix/controller.cpp:245-252 | the route found for a server id is the one the reverse table holds |
| ProxyController.Controller.OnEvent | src/roq/proxy/fix/controller.cpp:72-128 | an upstream message is delivered as the delivery function says, with the subscription tables and the upstream unchanged |
| ProxyController.Controller.OnRequest | src/roq/proxy/fix/controller.cpp:156-211 | security and order requests are forwarded unchanged to the user's server session, fatal when there is none |
| ProxyController.Controller.OnMarketDataRequest | src/roq/proxy/fix/controller.cpp:169-186 | a client id the session already uses changes nothing; otherwise a new request id is drawn, the request goes upstream under that id, and the subscription is recorded both ways, keeping the tables consistent |
| ProxyController.Controller.SubscribeNew | src/roq/proxy/fix/controller.cpp:175-182 | the new-subscription branch: draws the next request id, forwards the rewritten request, records the subscription |
| ProxyController.Controller.OpenEntries | src/roq/proxy/fix/controller.cpp:172 | looking a session up with `operator[]` gives it an empty table when it had none, changes no lookup and keeps the tables valid |
| ProxyController.Controller.Record | src/roq/proxy/fix/controller.cpp:180-182 | writes both tables so that the subscription routes both ways, keeping them consistent, faithful and issued |
| ProxyController.Controller.OnDisconnect | src/roq/proxy/fix/controller.cpp:132-154 | a disconnect sends one UNSUBSCRIBE per subscription of the session and erases its reverse routes, keeping the tables valid |
| ProxyController.Controller.UnsubscribeEach | src/roq/proxy/fix/controller.cpp:136-152 | the loop over a session's table: its upstream messages are the unsubscribes in visiting order and the erased ids are the visited server ids |
| JsonSessionModel.Accepted | src/roq/proxy/fix/client/json/session.cpp:116-120 | defines the new session: waiting for a logon, open, nothing sent; `AcceptedInv` proves it satisfies the invariant |
| JsonSessionModel.MapOrdType | src/roq/proxy/fix/client/json/session.cpp:57-64 | defines the names MARKET and LIMIT, anything else throws; `EnumNamesRoundTrip` proves each name maps back to its value |
| JsonSessionModel.MapSide | src/roq/proxy/fix/client/json/session.cpp:66-73 | defines the names BUY and SELL, anything else throws; `EnumNamesRoundTrip` proves each name maps back to its value |
| JsonSessionModel.MapTimeInForce | src/roq/proxy/fix/client/json/session.cpp:75-80 | defines the name GTC, anything else throws; `EnumNamesRoundTrip` proves the name maps back to its value |
| JsonSessionModel.GetString | src/roq/proxy/fix/client/json/session.cpp:83-90 | defines `get<std::string_view>`: a missing key gives the empty text, a string its text, anything else throws; `MissingKeyDefaults` and `WrongTypeThrows` prove both edge cases |
| JsonSessionModel.GetNumber | src/roq/proxy/fix/client/json/session.cpp:91-104 | defines `get<utils::Number>`: a missing key gives no number, a string a number with known decimals, a JSON number one without, anything else throws; `MissingKeyDefaults` and `WrongTypeThrows` prove the edge cases |
| JsonSessionModel.GetEnum | src/roq/proxy/fix/client/json/session.cpp:105-106 | defines `get` of an enumeration: a missing key gives the empty value, a string is mapped by name, anything else throws; `WrongTypeThrows` proves the last case |
| JsonSessionModel.OrderRequest | src/roq/proxy/fix/client/json/session.cpp:402-491 | defines the FIX request each order method builds from its parameters; `CancelRoundTrip` and `NewOrderRoundTrip` prove the parameters a client sends for a request build that request back |
| JsonSessionModel.AfterReply | src/roq/proxy/fix/client/json/session.cpp:507-542 | defines `send_jsonrpc`: one reply echoing the id, or nothing for an id that is neither a string nor an integer; `ReplyKeeps` proves it keeps the invariant |
| JsonSessionModel.AfterClose | src/roq/proxy/fix/client/json/session.cpp:211-214 | defines `close`: zombie and closed; `BadEnvelopeCloses` proves where it is reached |
| JsonSessionModel.AfterLogon | src/roq/proxy/fix/client/json/session.cpp:377-388 | defines `logon` of a session not READY, which throws when a credential is not a string; `LogonKeepsInv` proves it keeps the invariant |
| JsonSessionModel.AfterCredentials | src/roq/proxy/fix/client/json/session.cpp:379-387 | defines the registry logon and its reply; `LogonOutcomes` proves a session is READY exactly after a successful logon, with the reason otherwise |
| JsonSessionModel.AfterLogout | src/roq/proxy/fix/client/json/session.cpp:390-400 | defines `logout`: the registry unbinds and the reply follows its outcome; `LogoutSucceeds` and `LogoutKeepsInv` prove it |
| JsonSessionModel.AfterDispatch | src/roq/proxy/fix/client/json/session.cpp:493-497 | defines handing an order to the controller and replying success, or NOT_READY when upstream is not ready; `OrdersDispatched` proves it |
| JsonSessionModel.AfterJsonRpc | src/roq/proxy/fix/client/json/session.cpp:346-375 | defines `process_jsonrpc`: logon only when not READY, everything else only when READY, unknown methods refused; `Gating` and `JsonRpcKeepsInv` prove it |
| JsonSessionModel.AfterText | src/roq/proxy/fix/client/json/session.cpp:256-271 | defines a websocket text message: a zombie ignores it, a bad envelope or an escaping exception closes; `TextKeepsInv`, `BadEnvelopeCloses` and `ZombieIsFinal` prove it |
| JsonSessionModel.AfterBinary | src/roq/proxy/fix/client/json/session.cpp:273-276 | defines a binary message as closing the session |
| JsonSessionModel.AfterDisconnected | src/roq/proxy/fix/client/json/session.cpp:218-221 | defines the disconnect: zombie, and the registry removes the session; `DisconnectedKeepsInv` proves it |
| JsonSessionModel.AfterEvent | src/roq/proxy/fix/client/json/session.cpp:128-197 | defines the upstream events relayed as notifications, dropped or fatal; `EventsNotified` proves it |
| JsonSessionModel.Route | src/roq/proxy/fix/client/json/session.cpp:280-305 | defines the HTTP routing: only GET of exactly the symbols path is served; `RouteServesOnlySymbols` proves it |
| JsonSessionModel.AfterHttpRequest | src/roq/proxy/fix/client/json/session.cpp:227-254 | defines an HTTP request: a zombie ignores it, otherwise it is answered as routed |
| JsonSessionModel.AcceptedInv | src/roq/proxy/fix/client/json/session.cpp:116-120 | a newly accepted JSON session waits for logon, is open, and meets the session invariant |
| JsonSessionModel.ReplyKeeps | src/roq/proxy/fix/client/json/session.cpp:507-542 | a reply changes only the sent messages; it appends one reply echoing the request id, and nothing when the id is neither a string nor an integer |
| JsonSessionModel.LogonKeepsInv | src/roq/proxy/fix/client/json/session.cpp:377-388 | a logon that returns keeps the session and the registry binding in step |
| JsonSessionModel.LogoutKeepsInv | src/roq/proxy/fix/client/json/session.cpp:390-400 | a logout keeps the session and the registry binding in step |
| JsonSessionModel.JsonRpcKeepsInv | src/roq/proxy/fix/client/json/session.cpp:346-375 | a JSON-RPC call that returns keeps the session invariant |
| JsonSessionModel.TextKeepsInv | src/roq/proxy/fix/client/json/session.cpp:256-271 | a text message keeps the session invariant, whether it is processed or closes the session |
| JsonSessionModel.DisconnectedKeepsInv | src/roq/proxy/fix/client/json/session.cpp:218-221 | a disconnect keeps the invariant, unbinds the session and queues it for removal |
| JsonSessionModel.EnumNamesRoundTrip | src/roq/proxy/fix/client/json/session.cpp:57-80 | the order type, side and time-in-force names map back to their values, and every name that maps does so from its own value |
| JsonSessionModel.MissingKeyDefaults | src/roq/proxy/fix/client/json/session.cpp:83-111 | an absent parameter reads as the empty string, the undefined number or the undefined enum value |
| JsonSessionModel.WrongTypeThrows | src/roq/proxy/fix/client/json/session.cpp:83-111 | a parameter of the wrong JSON type throws, for strings, enums and, unless it is a number, numbers |
| JsonSessionModel.CancelFields | src/roq/proxy/fix/client/json/session.cpp:455-475 | the parameters written for a cancel read back as its ids and instrument |
| JsonSessionModel.CancelRoundTrip | src/roq/proxy/fix/client/json/session.cpp:455-475 | reading the parameters of a cancel request gives the same request back |
| JsonSessionModel.NewOrderValues | src/roq/proxy/fix/client/json/session.cpp:420-453 | an order gives one parameter value per key the session reads |
| JsonSessionModel.NewOrderTextFields | src/roq/proxy/fix/client/json/session.cpp:420-453 | the order id and instrument written for an order read back unchanged |
| JsonSessionModel.NewOrderSideAndQuantity | src/roq/proxy/fix/client/json/session.cpp:420-453 | the side and quantity written for an order read back unchanged |
| JsonSessionModel.NewOrderTrailingFields | src/roq/proxy/fix/client/json/session.cpp:420-453 | the order type, price, stop price and time in force written for an order read back unchanged |
| JsonSessionModel.NewOrderRoundTrip | src/roq/proxy/fix/client/json/session.cpp:420-453 | reading the parameters of a new order gives the same order back |
| JsonSessionModel.BadEnvelopeCloses | src/roq/proxy/fix/client/json/session.cpp:323-344 | a message that does not parse, or lacks the version, method, params or id, closes the session with nothing sent or forwarded |
| JsonSessionModel.Gating | src/roq/proxy/fix/client/json/session.cpp:346-375 | logon when logged on, any other method before logon, and an unknown method each answer with their error and change nothing else |
| JsonSessionModel.MassCancelUnknown | src/roq/proxy/fix/client/json/session.cpp:356-368 | a mass cancel request is answered as an unknown method |
| JsonSessionModel.LogonOutcomes | src/roq/proxy/fix/client/json/session.cpp:377-388 | a successful logon binds the username both ways, makes the session READY and replies success; a failed one only replies the reason |
| JsonSessionModel.LogoutSucceeds | src/roq/proxy/fix/client/json/session.cpp:390-400 | a logout unbinds both ways, returns the session to waiting for logon and replies success |
| JsonSessionModel.OrdersDispatched | src/roq/proxy/fix/client/json/session.cpp:346-375 | a well-formed order request is handed to the controller under the session's username and answered success, or NOT_READY when upstream is not ready |
| JsonSessionModel.BadParamsClose | src/roq/proxy/fix/client/json/session.cpp:323-344 | an order request whose parameters throw closes the session |
| JsonSessionModel.ZombieIsFinal | src/roq/proxy/fix/client/json/session.cpp:256-276 | a zombie session ignores text, HTTP requests and upstream events and stays a zombie |
| JsonSessionModel.EventsNotified | src/roq/proxy/fix/client/json/session.cpp:128-189 | execution reports and business message rejects reach a live session as notifications |
| JsonSessionModel.RouteServesOnlySymbols | src/roq/proxy/fix/client/json/session.cpp:227-305 | an HTTP request is answered only for GET of the symbols path under the prefix, and then with the symbol list; an upgrade request is upgraded |
| JsonSession.Session.constructor | src/roq/proxy/fix/client/json/session.cpp:116-120 | a new session is the accepted model state and valid |
| JsonSession.Session.SendJsonRpc | src/roq/proxy/fix/client/json/session.cpp:507-542 | moves the state as the reply function says |
| JsonSession.Session.Close | src/roq/proxy/fix/client/json/session.cpp:211-214 | the session becomes a zombie and is no longer open |
| JsonSession.Session.Logon | src/roq/proxy/fix/client/json/session.cpp:377-388 | moves the state as the logon function says, fails exactly when a credential throws, and keeps the session valid |
| JsonSession.Session.LogonWith | src/roq/proxy/fix/client/json/session.cpp:379-387 | registers the credentials and replies as the credential step says |
| JsonSession.Session.Logout | src/roq/proxy/fix/client/json/session.cpp:390-400 | moves the state as the logout function says and keeps the session valid |
| JsonSession.Session.DispatchRequest | src/roq/proxy/fix/client/json/session.cpp:493-497 | hands the request to the controller and replies success or NOT_READY as the dispatch function says |
| JsonSession.Session.ProcessJsonRpc | src/roq/proxy/fix/client/json/session.cpp:346-375 | moves the state as the JSON-RPC function says, fails exactly when it throws, and keeps the session valid |
| JsonSession.Session.OnText | src/roq/proxy/fix/client/json/session.cpp:256-271 | moves the state as the text function says and keeps the session valid |
| JsonSession.Session.OnBinary | src/roq/proxy/fix/client/json/session.cpp:273-276 | a binary message closes the session |
| JsonSession.Session.OnDisconnected | src/roq/proxy/fix/client/json/session.cpp:218-221 | moves the state as the disconnect function says and keeps the session valid |
| JsonSession.Session.OnHttpRequest | src/roq/proxy/fix/client/json/session.cpp:227-254 | answers the request as the routing function says, listing every shared symbol once |
| JsonSession.Session.OnEvent | src/roq/proxy/fix/client/json/session.cpp:128-197 | moves the state as the event function says; the fatal flag is raised exactly for the events the session has no handler for |
| Managers.Admit | src/roq/proxy/fix/client/manager.cpp:40-45 | defines `try_emplace` under the next id: nothing is inserted when the id is taken; `AdmitFresh` proves the id is free and is added |
| Managers.AdmitMany | src/roq/proxy/fix/client/manager.cpp:40-45 | defines `k` accepts one after another; `AdmitManyFresh`, `AdmitManyMembers` and `AdmitManyCount` prove what they add |
| Managers.Collect | src/roq/proxy/fix/client/manager.cpp:49-54 | defines `remove_zombies`: before the collection time nothing changes, at or after it the queued sessions are erased and the next collection is one second later; `CollectErasesQueued` proves it |
| Managers.Broadcast | src/roq/proxy/fix/client/manager.hpp:35-38 | an event is handed to each session once, in the order the sessions are visited |
| Managers.AdmitFresh | src/roq/proxy/fix/client/manager.cpp:40-45 | the id given to a new connection is one above the last id issued, no session holds it yet, and the session set grows by exactly that id |
| Managers.AdmitManyFresh | src/roq/proxy/fix/client/manager.cpp:40-45 | after any number of accepted connections the sessions are the earlier ones plus the ids issued in between, all distinct |
| Managers.AdmitManyMembers | src/roq/proxy/fix/client/manager.cpp:40-45 | after `k` accepts the sessions are the earlier ones and the `k` ids after the last one issued |
| Managers.AdmitManyCount | src/roq/proxy/fix/client/manager.cpp:40-45 | while every held id was issued, each of `k` accepts adds a new session |
| Managers.CollectErasesQueued | src/roq/proxy/fix/client/manager.cpp:49-54 | before the collection time nothing is removed; at or after it the queued sessions, and only they, are erased and the next collection is one second later |
| Managers.CollectThrottled | src/roq/proxy/fix/client/manager.cpp:49-54 | a second collection within one second of the last removes nothing |
| Managers.CollectKeepsIssued | src/roq/proxy/fix/client/manager.cpp:49-54 | collection only removes sessions, so every remaining session id is still one that was issued |
| ClientManager.Manager.constructor | src/roq/proxy/fix/client/manager.cpp:22-24 | a new manager holds no sessions and its first collection is due at once |
| ClientManager.Manager.OnAccept | src/roq/proxy/fix/client/manager.cpp:40-45 | a new connection gets the next shared session id, which was unused, and is added under it, with nothing else changed |
| ClientManager.Manager.Dispatch | src/roq/proxy/fix/client/manager.hpp:35-38 | an event reaches every session exactly once, in the order the sessions are visited; the sessions that close themselves in reaction are removed from the registry as `session_remove` of each says, and nothing else changes |
| ClientManager.Manager.HandTo | src/roq/proxy/fix/client/manager.hpp:35-38 | one session receives the event, and a session that closes in reaction is removed from the registry, so the registry is the removal of every closing session handled so far |
| ClientManager.Manager.RemoveZombies | src/roq/proxy/fix/client/manager.cpp:49-54 | when due, erases the sessions the registry queued for removal and clears that queue in the registry; otherwise changes nothing |
| ClientManager.Manager.OnTimer | src/roq/proxy/fix/client/manager.cpp:33-36 | a timer tick reaches every session, the sessions it closes are removed from the registry, and then the zombie collection runs on the queue as it then stands |
| ClientManager.Manager.OnStop | src/roq/proxy/fix/client/manager.cpp:29-31 | a stop event reaches every session and changes neither the sessions held nor the registry |
| LegacyClientManager.Manager.constructor | src/roq/fix_proxy/client/manager.cpp:19-22 | a new manager holds no sessions and its first collection is due at once |
| LegacyClientManager.Manager.OnAccept | src/roq/fix_proxy/client/manager.cpp:31-36 | a new connection gets the next shared session id, which was unused, and is added under it |
| LegacyClientManager.Manager.Find | src/roq/fix_proxy/client/manager.hpp:42-48 | a session is found exactly when it is held |
| LegacyClientManager.Manager.RemoveZombies | src/roq/fix_proxy/client/manager.cpp:40-45 | when due, erases the queued sessions and clears the queue; otherwise changes nothing |
| LegacyClientManager.Manager.OnTimer | src/roq/fix_proxy/client/manager.cpp:24-27 | a timer tick runs only the zombie collection; the timer is not passed on to the sessions |
| SimpleController.FixConnection | src/simple/controller.cpp:24-31 | a FIX session is created exactly when there is one configured connection, and then for that connection |
| SimpleController.Controller.constructor | src/simple/controller.cpp:42-52 | a new controller has its one FIX connection, empty shared state, no sessions, and a collection due at once |
| SimpleController.Controller.Dispatch | src/simple/controller.cpp:132-137 | an event goes to the FIX session only |
| SimpleController.Controller.OnStart | src/simple/controller.cpp:54-58 | the start event goes to the FIX session |
| SimpleController.Controller.OnStop | src/simple/controller.cpp:59-62 | the stop event goes to the FIX session |
| SimpleController.Controller.OnAccept | src/simple/controller.cpp:84-89 | a new connection gets the controller's next session id, which was unused, and is added under it |
| SimpleController.Controller.Forward | src/simple/controller.cpp:107-117 | new order, replace and cancel requests go to the FIX session unchanged |
| SimpleController.Controller.RemoveZombies | src/simple/controller.cpp:121-130 | when due, erases the queued sessions, empties the queue and leaves the symbols alone; otherwise changes nothing |
| SimpleController.Controller.OnTimer | src/simple/controller.cpp:74-80 | a timer tick goes to the FIX session and then runs the zombie collection |
| SimpleShared.Shared.constructor | src/simple/shared.hpp:11-14 | the shared state starts with no sessions queued for removal and no symbols |
| SimpleJsonModel.ResultAsWritten | src/simple/json/session.cpp:187-217 | defines the result reply as the code formats it; `StringIdAsWritten` and `IntegerIdResultAsIntended` compare it with the corrected reply |
| SimpleJsonModel.ErrorAsWritten | src/simple/json/session.cpp:219-253 | defines the error reply as the code formats it; `ErrorAsWrittenIsNotJson` and `ErrorAsWrittenDiffers` prove it is not the intended JSON |
| SimpleJsonModel.Reply | src/simple/json/session.cpp:187-253 | defines the corrected reply, echoing a string or integer id with its JSON type; `ReplyNeedsEchoableId`, `ResultIsJson` and `ErrorIsJson` prove it is the JSON object it stands for |
| SimpleJsonModel.SymbolParam | src/simple/json/session.cpp:177-185 | defines reading `params.symbol` as a string, which throws otherwise; `SymbolParamReads` proves it |
| SimpleJsonModel.Process | src/simple/json/session.cpp:150-175 | defines `process`: a bad message closes, an order method replies its symbol, anything else is refused as an unknown method, each with the corrected reply (see ## Findings); `BadEnvelopeCloses` and `RequestOutcomes` prove it |
| SimpleJsonModel.AfterText | src/simple/json/session.cpp:87-100 | defines a text message as processing it and sending the corrected reply (see ## Findings), or closing |
| SimpleJsonModel.AfterDisconnected | src/simple/json/session.cpp:52-54 | defines the disconnect as queueing the session; `DisconnectedQueues` proves it |
| SimpleJsonModel.Route | src/simple/json/session.cpp:109-132 | defines the HTTP routing: a GET whose path starts with the symbols segment is served; `RouteServesSymbols` proves it |
| SimpleJsonModel.AfterHttpRequest | src/simple/json/session.cpp:60-85 | defines an HTTP request as answered by the routing |
| SimpleJsonModel.ReplyNeedsEchoableId | src/simple/json/session.cpp:187-253 | a reply is sent exactly when the request id is a string or an integer, as written and as corrected |
| SimpleJsonModel.ResultIsJson | src/simple/json/session.cpp:187-217 | the corrected result reply is the JSON object with the version, the result and the request id echoed with its type |
| SimpleJsonModel.ErrorMember | src/simple/json/session.cpp:227-229 | the corrected error member is an object holding the message |
| SimpleJsonModel.ErrorIsJson | src/simple/json/session.cpp:219-253 | the corrected error reply is the JSON object with the version, an error object and the echoed id |
| SimpleJsonModel.ErrorObjectText | src/simple/json/session.cpp:219-253 | the text of the corrected error object is the intended format with the message and the id filled in |
| SimpleJsonModel.ErrorAsWrittenIsNotJson | src/simple/json/session.cpp:227-229 | the error reply as written opens the error member with a quote, a brace and two quotes, which no JSON text contains there |
| SimpleJsonModel.ErrorOpensObject | src/simple/json/session.cpp:227-229 | the corrected error reply opens an object where the one as written opens a string |
| SimpleJsonModel.ErrorAsWrittenDiffers | src/simple/json/session.cpp:219-253 | the error reply as written never equals the corrected one |
| SimpleJsonModel.StringIdAsWritten | src/simple/json/session.cpp:191-200 | with a string id the replies as written are longer than the corrected ones, the result by exactly the two extra quotes |
| SimpleJsonModel.IntegerIdResultAsIntended | src/simple/json/session.cpp:202-213 | with an integer id the result reply as written is already the corrected one |
| SimpleJsonModel.BadEnvelopeCloses | src/simple/json/session.cpp:150-175 | a message that does not parse or lacks the version, method, params or id closes the connection and sends nothing |
| SimpleJsonModel.RequestOutcomes | src/simple/json/session.cpp:160-185 | an order method replies its symbol parameter as the result, closing when the symbol is missing or not a string; any other method replies the unknown-method error |
| SimpleJsonModel.SymbolParamReads | src/simple/json/session.cpp:177-185 | the symbol parameter reads exactly when the params are an object with a string under symbol |
| SimpleJsonModel.DisconnectedQueues | src/simple/json/session.cpp:52-54 | a disconnect queues the session for removal, changes no other queued id, and a second disconnect adds nothing |
| SimpleJsonModel.RouteServesSymbols | src/simple/json/session.cpp:60-132 | an upgrade request is upgraded; otherwise a response is given exactly for GET whose first path segment after the prefix is symbols, and then it is the symbol list |
| SimpleJson.Session.constructor | src/simple/json/session.cpp:27-30 | a new session is open and has sent nothing |
| SimpleJson.Session.Send | src/simple/json/session.cpp:187-253 | sends the corrected reply text, or nothing when the id cannot be echoed |
| SimpleJson.Session.Close | src/simple/json/session.cpp:173-174 | closes the connection and changes nothing else |
| SimpleJson.Session.OnText | src/simple/json/session.cpp:87-100 | moves the state as the text function says |
| SimpleJson.Session.OnBinary | src/simple/json/session.cpp:102-105 | a binary message closes the connection |
| SimpleJson.Session.OnDisconnected | src/simple/json/session.cpp:52-54 | queues the session in the shared state as the disconnect function says |
| SimpleJson.Session.OnHttpRequest | src/simple/json/session.cpp:60-85 | answers the request as the routing function says, listing every shared symbol once |

## Left out

- The FIX codec (framing, BodyLength, CheckSum, field encoding) is foreign code: decoding is a `reader` parameter returning a message and the bytes it consumed, and encoding is not modelled; outgoing messages are values.
- The JSON parser and `fmt` formatting are foreign code: a parsed document is a `Json` value given to the handlers, and only the reply texts the sessions build by hand are spelled out.
- Regular expressions on symbols and the web-safe Base64 check on request ids are predicates passed in, not implemented.
- The HMAC-SHA256 credential mode (src/roq/proxy/fix/tools/crypto.cpp) is not part of this model; the password check is plain equality.
- Clocks are a `now` parameter in nanoseconds, as the source's `std::chrono::nanoseconds`; timers are comparisons against it.
- Logging, the event loop `run()`, signal handling, listeners, TCP and websocket plumbing, and the websocket close handshake are left out; `close` only marks the connection closed.
- Session ids, request ids and sequence numbers are unbounded: the source's 64-bit counters would wrap only after 2^64 increments. HeartBtInt is truncated to 16 bits as in the source.
- `log::fatal` paths are modelled as a returned `fatal` flag with nothing changed, except where the source states the condition as an assertion on the caller, which becomes a `requires`.
- SimpleController.Controller.constructor: requires exactly one configured connection, because the source's constructor aborts otherwise; `FixConnection` states that condition.
- The upstream session's Logout handler (src/roq/proxy/fix/server/session.cpp:320-332) cannot be reached, since `parse` decodes a Logout as a Heartbeat; the model follows `parse` and has no handler for it.
- The variant client session's header declares handlers that its .cpp does not define; the model follows the .cpp.
- client/session.cpp passes raw logon data to `session_logon`, which the registry header does not accept; the model uses the registry's own signature with plain credentials.
- The older tree's registry (src/roq/fix_proxy/shared.*) is not part of this model: LegacyClientManager uses the proxy's `SessionRegistry.Shared`. The older manager's header declares Start, Stop and timer-event handlers that its .cpp does not define (the .cpp has a plain timer handler); the timer, accept and find are modelled, and its `dispatch`, which nothing in the .cpp calls, is not.
- The set of upstream sessions is a set of usernames (`servers`), and the client manager's sessions a set of ids (`live`) given to the controller, since the sessions themselves live in other objects.
- ProxyController.Controller.OnEvent: what a client session does with a delivered event is not composed with the controller; the delivery itself is stated.
- JsonSession.Session.OnEvent: requires the event not to be a trade capture report or its ack, since the session declares no handler for them.
- Json.EchoedId: a string id is echoed between quotes without escaping, as the proxy writes it; the reply is valid JSON only for ids without characters that need escaping (`Json.EchoIsJson` states when).
- Json.EchoInjective: promises distinct echoes only while integer ids stay within the int64 range, because the proxy reads an integer id back with `get<int64_t>` and an unsigned id above it wraps to the negative id 2^64 below it (`Json.EchoWrapsUnsigned` shows the clash); an integer literal beyond the uint64 range is stored as a floating-point number and gets no reply (`Json.HugeIdUnanswered`).
- JsonSessionModel.GetNumber: keeps a JSON number parameter as its exact value; the source converts it with `get<double>`, which rounds integers beyond 2^53 and most decimals, and floating point is not modelled.
- Json.FindIn: returns the first member with a key, while the JSON parser keeps the last of duplicate keys; the documents the lemmas build have distinct keys, and documents with duplicate keys are not distinguished.
- `parse_number` (reading a decimal from a JSON string) is foreign code; a number parameter is kept as its text or its value.
- The NotReady exception thrown by the upstream session is the `upstreamReady` argument of the JSON dispatch.
- The text of notifications the JSON session sends for execution reports and rejects is not spelled out; they are values.
- The simple session reads the URL prefix and the encode buffer from a `settings` member that its shared header does not declare; the prefix is a constant of the session.
- The simple controller's handlers for upstream events only log; they are not modelled.
- Start and Stop handlers with empty bodies in the sessions are not modelled, nor are the JSON session's empty Timer, UserResponse and force-disconnect handlers (src/roq/proxy/fix/client/json/session.cpp:122-126, 142-143, 207-209), which change nothing.
- The simple JSON session has no zombie state: after `close` it still answers, as in the source.
- Exceptions from the REST response object (a second response) are not modelled; each request gets at most the one response the routing function gives.

## Findings

| source | as written | input that shows it | evidently intended | confidence | as-written member | corrected member |
|---|---|---|---|---|---|---|
| src/simple/json/session.cpp:219-253 | the error reply's format string doubles the braces inside a quoted string, so the error member becomes a quote, a brace and two quotes | any request with an unknown method and id 1 is answered with `{"jsonrpc":"2.0","error":"{""message":"unknown method""},"id":1}`, which is not JSON | an error member that is the object `{"message":"unknown method"}` | high, not executed | SimpleJsonModel.ErrorAsWrittenIsNotJson | SimpleJsonModel.ErrorIsJson |
| src/simple/json/session.cpp:187-200 | for a string id the parsed JSON value is formatted, quotes included, inside a second pair of quotes | a new order with id "a" is answered with `"id":""a""` | the id echoed once, as `"id":"a"` | medium (depends on how the JSON value is formatted), not executed | SimpleJsonModel.StringIdAsWritten | SimpleJsonModel.ResultIsJson |

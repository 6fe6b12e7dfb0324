// The simple front end's controller (src/simple/controller.cpp): it owns the
// single upstream FIX session, numbers accepted JSON sessions from its own
// counter, forwards order requests upstream unchanged, and erases the
// sessions queued in `sessionsToRemove` at most once per second. The FIX
// session is represented by the sequence of inputs it is handed, the JSON
// sessions by their ids.

module SimpleController {
  import opened Common
  import opened Fix
  import opened Managers
  import SimpleShared

  /** What the controller hands to the FIX session. */
  datatype FixInput = StartIn | StopIn | TimerIn(now: nat) | OrderIn(request: Request)

  /** The FIX session's connection, if the configuration names exactly one;
    * with any other number the controller's construction is fatal. */
  function FixConnection(connections: seq<string>): (r: Option<string>)
    ensures r.Some? <==> |connections| == 1
    ensures r.Some? ==> r.value in connections
  {
    if |connections| != 1 then None else Some(connections[0])
  }

  /** The requests a JSON session may hand to the controller. */
  predicate Forwardable(r: Request)
  {
    r.NewOrderSingle? || r.OrderCancelReplaceRequest? || r.OrderCancelRequest?
  }

  class Controller {
    const shared: SimpleShared.Shared
    /** The URI of the one FIX connection. */
    const connection: string
    var jsonSessions: set<nat>
    var nextSessionId: nat
    var nextCollection: nat
    var fixInputs: seq<FixInput>

    ghost function Gc(): Collector
      reads this
    {
      Collector(jsonSessions, nextCollection)
    }

    ghost predicate Valid()
      reads this
    {
      IdsIssued(jsonSessions, nextSessionId)
    }

    constructor(connections: seq<string>)
      requires FixConnection(connections).Some?
      ensures connection == connections[0] && fresh(shared)
      ensures shared.sessionsToRemove == {} && shared.symbols == {}
      ensures Gc() == Collector({}, 0) && nextSessionId == 0 && fixInputs == []
      ensures Valid()
    {
      connection := FixConnection(connections).value;
      shared := new SimpleShared.Shared();
      jsonSessions := {};
      nextSessionId := 0;
      nextCollection := 0;
      fixInputs := [];
    }

    /** `dispatch`: every event goes to the one FIX session. */
    method Dispatch(input: FixInput)
      modifies this
      ensures fixInputs == old(fixInputs) + [input]
      ensures Gc() == old(Gc()) && nextSessionId == old(nextSessionId)
    {
      fixInputs := fixInputs + [input];
    }

    /** Start, handed to the FIX session before the event loop runs. */
    method OnStart()
      modifies this
      ensures fixInputs == old(fixInputs) + [StartIn]
      ensures Gc() == old(Gc()) && nextSessionId == old(nextSessionId)
    {
      Dispatch(StartIn);
    }

    /** Stop, handed to the FIX session after the event loop ends. */
    method OnStop()
      modifies this
      ensures fixInputs == old(fixInputs) + [StopIn]
      ensures Gc() == old(Gc()) && nextSessionId == old(nextSessionId)
    {
      Dispatch(StopIn);
    }

    /** A new JSON connection: `session_id = ++next_session_id_`, then
      * `try_emplace`; the id is always new. */
    method OnAccept() returns (sessionId: nat)
      requires Valid()
      modifies this
      ensures Valid()
      ensures sessionId == old(nextSessionId) + 1 == nextSessionId && sessionId !in old(jsonSessions)
      ensures jsonSessions == Admit(old(jsonSessions), old(nextSessionId))
      ensures nextCollection == old(nextCollection) && fixInputs == old(fixInputs)
    {
      AdmitFresh(jsonSessions, nextSessionId);
      nextSessionId := nextSessionId + 1;
      sessionId := nextSessionId;
      if sessionId !in jsonSessions {
        jsonSessions := jsonSessions + {sessionId};
      }
    }

    /** An order request from a JSON session, forwarded unchanged. */
    method Forward(request: Request)
      requires Forwardable(request)
      modifies this
      ensures fixInputs == old(fixInputs) + [OrderIn(request)]
      ensures Gc() == old(Gc()) && nextSessionId == old(nextSessionId)
    {
      Dispatch(OrderIn(request));
    }

    /** `remove_zombies`: when due, reschedule one second later, erase every
      * queued id, then clear the queue. */
    method RemoveZombies(now: nat)
      requires Valid()
      modifies this, shared
      ensures Valid()
      ensures Gc() == Collect(old(Gc()), old(shared.sessionsToRemove), now)
      ensures shared.sessionsToRemove == if Due(old(Gc()), now) then {} else old(shared.sessionsToRemove)
      ensures shared.symbols == old(shared.symbols)
      ensures nextSessionId == old(nextSessionId) && fixInputs == old(fixInputs)
    {
      if now < nextCollection {
        return;
      }
      nextCollection := now + GARBAGE_COLLECTION_FREQUENCY;
      var queued := Enumerate(shared.sessionsToRemove);
      var i := 0;
      while i < |queued|
        invariant 0 <= i <= |queued|
        invariant forall s :: s in jsonSessions <==> s in old(jsonSessions) && s !in queued[..i]
        invariant nextCollection == now + GARBAGE_COLLECTION_FREQUENCY
        invariant nextSessionId == old(nextSessionId) && fixInputs == old(fixInputs)
        invariant shared.sessionsToRemove == old(shared.sessionsToRemove) && shared.symbols == old(shared.symbols)
      {
        jsonSessions := jsonSessions - {queued[i]};
        i := i + 1;
      }
      assert queued[..i] == queued;
      shared.sessionsToRemove := {};
      CollectKeepsIssued(old(Gc()), old(shared.sessionsToRemove), now, nextSessionId);
    }

    /** The timer: handed to the FIX session first, then garbage collection. */
    method OnTimer(now: nat)
      requires Valid()
      modifies this, shared
      ensures Valid()
      ensures fixInputs == old(fixInputs) + [TimerIn(now)]
      ensures Gc() == Collect(old(Gc()), old(shared.sessionsToRemove), now)
      ensures shared.sessionsToRemove == if Due(old(Gc()), now) then {} else old(shared.sessionsToRemove)
      ensures shared.symbols == old(shared.symbols)
    {
      Dispatch(TimerIn(now));
      RemoveZombies(now);
    }
  }
}

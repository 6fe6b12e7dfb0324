// The proxy's client session manager (src/roq/proxy/fix/client/manager.cpp):
// it numbers accepted connections from the shared counter, hands Stop and
// Timer events to every session, and on each timer erases the sessions the
// shared registry has queued for removal, at most once per second. The
// sessions themselves are represented by their ids.

module ClientManager {
  import opened Common
  import opened SessionRegistry
  import opened Managers

  /** The events the manager hands to every session. */
  datatype ManagerEvent = StopEvent | TimerEvent(now: nat)

  class Manager {
    const shared: Shared
    var sessions: set<nat>
    var nextCollection: nat
    /** The events handed to sessions, in order. */
    var delivered: seq<Delivery<ManagerEvent>>

    ghost function Gc(): Collector
      reads this
    {
      Collector(sessions, nextCollection)
    }

    ghost predicate Valid()
      reads this, shared
    {
      shared.Valid() && IdsIssued(sessions, shared.nextSessionId)
    }

    constructor(shared: Shared)
      requires shared.Valid()
      ensures this.shared == shared && Gc() == Collector({}, 0) && delivered == []
      ensures Valid()
    {
      this.shared := shared;
      sessions := {};
      nextCollection := 0;
      delivered := [];
    }

    /** A new connection: `session_id = ++shared.next_session_id`, then
      * `try_emplace`; the id is always new. */
    method OnAccept() returns (sessionId: nat)
      requires Valid()
      modifies this, shared
      ensures Valid()
      ensures sessionId == old(shared.nextSessionId) + 1 && sessionId !in old(sessions)
      ensures sessions == Admit(old(sessions), old(shared.nextSessionId))
      ensures shared.Model() == old(shared.Model()).(nextSessionId := sessionId)
      ensures nextCollection == old(nextCollection) && delivered == old(delivered)
    {
      AdmitFresh(sessions, shared.nextSessionId);
      shared.nextSessionId := shared.nextSessionId + 1;
      sessionId := shared.nextSessionId;
      if sessionId !in sessions {
        sessions := sessions + {sessionId};
      }
    }

    /** `dispatch`: the event to each session, in the map's iteration order
      * `order`. A session may close itself in reaction (a client session
      * whose logon, user response or heartbeat has timed out, say);
      * `closing` names those sessions, and each calls `session_remove` on
      * the registry while it handles the event. */
    method Dispatch(e: ManagerEvent, closing: set<nat>) returns (order: seq<nat>)
      requires Valid() && closing <= sessions
      modifies this, shared
      ensures Valid()
      ensures |order| == |sessions| && forall s :: s in order <==> s in sessions
      ensures delivered == old(delivered) + Broadcast(order, e)
      ensures Gc() == old(Gc())
      ensures shared.Model() == RemoveAll(old(shared.Model()), closing)
    {
      order := Enumerate(sessions);
      ghost var r0 := shared.Model();
      ghost var done: set<nat> := {};
      var i := 0;
      while i < |order|
        invariant 0 <= i <= |order|
        invariant Valid()
        invariant delivered == old(delivered) + Broadcast(order[..i], e)
        invariant Gc() == old(Gc())
        invariant done <= closing
        invariant forall j :: 0 <= j < i && order[j] in closing ==> order[j] in done
        invariant shared.Model() == RemoveAll(r0, done)
      {
        BroadcastStep(order, i, e);
        done := HandTo(order[i], e, closing, r0, done);
        i := i + 1;
      }
      forall s | s in closing
        ensures s in done
      {
        var j :| 0 <= j < |order| && order[j] == s;
      }
      assert done == closing;
    }

    /** One session handles the event, and removes itself from the registry
      * when it is one of `closing`; `done` are the sessions of `closing`
      * that have done so before it. */
    method HandTo(s: nat, e: ManagerEvent, closing: set<nat>, ghost r0: Registry, ghost done: set<nat>)
        returns (ghost done': set<nat>)
      requires Valid() && Bijective(r0) && shared.Model() == RemoveAll(r0, done)
      modifies this, shared
      ensures Valid()
      ensures delivered == old(delivered) + [Delivery(s, e)] && Gc() == old(Gc())
      ensures done' == if s in closing then done + {s} else done
      ensures shared.Model() == RemoveAll(r0, done')
    {
      delivered := delivered + [Delivery(s, e)];
      done' := done;
      if s in closing {
        RemoveOneMore(r0, done, s);
        shared.SessionRemove(s);
        done' := done + {s};
      }
    }

    /** `remove_zombies`: when due, reschedule, then drain the registry's
      * queue and erase each drained id. */
    method RemoveZombies(now: nat)
      requires Valid()
      modifies this, shared
      ensures Valid()
      ensures Gc() == Collect(old(Gc()), old(shared.toRemove), now)
      ensures shared.Model() == if Due(old(Gc()), now) then Cleanup(old(shared.Model())) else old(shared.Model())
      ensures delivered == old(delivered)
    {
      if now < nextCollection {
        return;
      }
      nextCollection := now + GARBAGE_COLLECTION_FREQUENCY;
      ghost var queued := shared.toRemove;
      var collected := shared.SessionCleanup();
      ghost var cleaned := shared.Model();
      var i := 0;
      while i < |collected|
        invariant 0 <= i <= |collected|
        invariant forall s :: s in sessions <==> s in old(sessions) && s !in collected[..i]
        invariant nextCollection == now + GARBAGE_COLLECTION_FREQUENCY && delivered == old(delivered)
        invariant shared.Model() == cleaned
      {
        sessions := sessions - {collected[i]};
        i := i + 1;
      }
      assert collected[..i] == collected;
      CollectKeepsIssued(old(Gc()), queued, now, shared.nextSessionId);
    }

    /** The timer reaches every session first, and `closing` are the
      * sessions that close on it; then the collection runs, so a session
      * that closes on this tick is erased on it when a collection is due. */
    method OnTimer(now: nat, closing: set<nat>) returns (order: seq<nat>)
      requires Valid() && closing <= sessions
      modifies this, shared
      ensures Valid()
      ensures |order| == |old(sessions)| && forall s :: s in order <==> s in old(sessions)
      ensures delivered == old(delivered) + Broadcast(order, TimerEvent(now))
      ensures Gc() == Collect(old(Gc()), old(shared.toRemove) + closing, now)
      ensures shared.Model() ==
        var afterDispatch := RemoveAll(old(shared.Model()), closing);
        if Due(old(Gc()), now) then Cleanup(afterDispatch) else afterDispatch
    {
      order := Dispatch(TimerEvent(now), closing);
      RemoveZombies(now);
    }

    /** Stop is handed to every session, which does nothing with it; Start
      * is not handed on. */
    method OnStop() returns (order: seq<nat>)
      requires Valid()
      modifies this, shared
      ensures Valid()
      ensures |order| == |sessions| && forall s :: s in order <==> s in sessions
      ensures delivered == old(delivered) + Broadcast(order, StopEvent)
      ensures Gc() == old(Gc()) && shared.Model() == old(shared.Model())
    {
      order := Dispatch(StopEvent, {});
      assert RemoveAll(old(shared.Model()), {}) == old(shared.Model());
    }
  }
}

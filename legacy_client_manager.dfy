// The older client session manager (src/roq/fix_proxy/client/manager.cpp):
// the same numbering and garbage collection as the proxy's manager, but its
// timer handler only collects garbage, nothing is handed to the sessions.
// The sessions are represented by their ids; the registry is the proxy's
// `Shared`, since the older tree's own registry is not part of this model.

module LegacyClientManager {
  import opened SessionRegistry
  import opened Managers

  class Manager {
    const shared: Shared
    var sessions: set<nat>
    var nextCollection: nat

    ghost function Gc(): Collector
      reads this
    {
      Collector(sessions, nextCollection)
    }

    ghost predicate Valid()
      reads this, shared
    {
      shared.Valid() && IdsIssued(sessions, shared.nextSessionId)
    }

    constructor(shared: Shared)
      requires shared.Valid()
      ensures this.shared == shared && Gc() == Collector({}, 0)
      ensures Valid()
    {
      this.shared := shared;
      sessions := {};
      nextCollection := 0;
    }

    /** A new connection: the shared counter is pre-incremented and the
      * session inserted under the new id, which is never taken. */
    method OnAccept() returns (sessionId: nat)
      requires Valid()
      modifies this, shared
      ensures Valid()
      ensures sessionId == old(shared.nextSessionId) + 1 && sessionId !in old(sessions)
      ensures sessions == Admit(old(sessions), old(shared.nextSessionId))
      ensures shared.Model() == old(shared.Model()).(nextSessionId := sessionId)
      ensures nextCollection == old(nextCollection)
    {
      AdmitFresh(sessions, shared.nextSessionId);
      shared.nextSessionId := shared.nextSessionId + 1;
      sessionId := shared.nextSessionId;
      if sessionId !in sessions {
        sessions := sessions + {sessionId};
      }
    }

    /** `find`: whether a session with this id exists. */
    method Find(sessionId: nat) returns (found: bool)
      ensures found <==> sessionId in sessions
    {
      found := sessionId in sessions;
    }

    /** `remove_zombies`: when due, reschedule one second later, then erase
      * every id the registry drains from its queue. */
    method RemoveZombies(now: nat)
      requires Valid()
      modifies this, shared
      ensures Valid()
      ensures Gc() == Collect(old(Gc()), old(shared.toRemove), now)
      ensures shared.Model() == if Due(old(Gc()), now) then Cleanup(old(shared.Model())) else old(shared.Model())
    {
      if now < nextCollection {
        return;
      }
      nextCollection := now + GARBAGE_COLLECTION_FREQUENCY;
      ghost var queued := shared.toRemove;
      var collected := shared.SessionCleanup();
      ghost var cleaned := shared.Model();
      var i := 0;
      while i < |collected|
        invariant 0 <= i <= |collected|
        invariant forall s :: s in sessions <==> s in old(sessions) && s !in collected[..i]
        invariant nextCollection == now + GARBAGE_COLLECTION_FREQUENCY
        invariant shared.Model() == cleaned
      {
        sessions := sessions - {collected[i]};
        i := i + 1;
      }
      assert collected[..i] == collected;
      CollectKeepsIssued(old(Gc()), queued, now, shared.nextSessionId);
    }

    /** The timer: garbage collection only. */
    method OnTimer(now: nat)
      requires Valid()
      modifies this, shared
      ensures Valid()
      ensures Gc() == Collect(old(Gc()), old(shared.toRemove), now)
      ensures shared.Model() == if Due(old(Gc()), now) then Cleanup(old(shared.Model())) else old(shared.Model())
    {
      RemoveZombies(now);
    }
  }
}

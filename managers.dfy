// What the three session managers (src/roq/proxy/fix/client/manager.cpp,
// src/roq/fix_proxy/client/manager.cpp and src/simple/controller.cpp) have in
// common, as values: each accepted connection gets the next session id and
// is inserted under it, and zombie sessions are erased by a garbage
// collection that runs at most once per second.

module Managers {
  /** One second in nanoseconds, the clock's unit. */
  const GARBAGE_COLLECTION_FREQUENCY: nat := 1_000_000_000

  /** The live session ids and the time before which no collection runs. */
  datatype Collector = Collector(sessions: set<nat>, nextCollection: nat)

  /** Every live id has been handed out: it is positive and at most the
    * last id given. */
  ghost predicate IdsIssued(sessions: set<nat>, lastId: nat)
  {
    forall s :: s in sessions ==> 1 <= s <= lastId
  }

  /** `try_emplace` under the pre-incremented id `lastId + 1`: nothing is
    * inserted when the id is taken. */
  function Admit(sessions: set<nat>, lastId: nat): set<nat>
  {
    if lastId + 1 in sessions then sessions else sessions + {lastId + 1}
  }

  /** `k` connections accepted one after another. */
  function AdmitMany(sessions: set<nat>, lastId: nat, k: nat): set<nat>
    decreases k
  {
    if k == 0 then sessions else Admit(AdmitMany(sessions, lastId, k - 1), lastId + k - 1)
  }

  /** `remove_zombies(now)` with `queued` the ids waiting to be removed. */
  function Collect(c: Collector, queued: set<nat>, now: nat): Collector
  {
    if now < c.nextCollection then c
    else Collector(c.sessions - queued, now + GARBAGE_COLLECTION_FREQUENCY)
  }

  /** Whether `Collect` runs at all at `now`. */
  predicate Due(c: Collector, now: nat)
  {
    c.nextCollection <= now
  }

  /** An event handed to each session in turn. */
  datatype Delivery<E> = Delivery(sessionId: nat, event: E)

  function Broadcast<E>(order: seq<nat>, e: E): (r: seq<Delivery<E>>)
    ensures |r| == |order|
    ensures forall i :: 0 <= i < |order| ==> r[i] == Delivery(order[i], e)
  {
    seq(|order|, i requires 0 <= i < |order| => Delivery(order[i], e))
  }

  /** Handing the event to one more session extends the deliveries by one. */
  lemma BroadcastStep<E>(order: seq<nat>, i: nat, e: E)
    requires i < |order|
    ensures Broadcast(order[..i + 1], e) == Broadcast(order[..i], e) + [Delivery(order[i], e)]
  {
  }

  // ---------------------------------------------------------------------------
  // Properties

  /** While every live id has been issued, the next id is new: the session is
    * inserted, and every id stays issued. */
  lemma AdmitFresh(sessions: set<nat>, lastId: nat)
    requires IdsIssued(sessions, lastId)
    ensures lastId + 1 !in sessions
    ensures Admit(sessions, lastId) == sessions + {lastId + 1}
    ensures |Admit(sessions, lastId)| == |sessions| + 1
    ensures IdsIssued(Admit(sessions, lastId), lastId + 1)
  {
  }

  /** `k` accepted connections get the `k` distinct ids after `lastId`, each
    * inserted as a new session. */
  lemma AdmitManyFresh(sessions: set<nat>, lastId: nat, k: nat)
    requires IdsIssued(sessions, lastId)
    ensures IdsIssued(AdmitMany(sessions, lastId, k), lastId + k)
    ensures |AdmitMany(sessions, lastId, k)| == |sessions| + k
    ensures forall s :: s in AdmitMany(sessions, lastId, k) <==> s in sessions || lastId < s <= lastId + k
  {
    AdmitManyMembers(sessions, lastId, k);
    AdmitManyCount(sessions, lastId, k);
  }

  /** The sessions after `k` accepts are the earlier ones and the `k` ids
    * after `lastId`, whether or not those were taken. */
  lemma {:induction false} AdmitManyMembers(sessions: set<nat>, lastId: nat, k: nat)
    ensures forall s :: s in AdmitMany(sessions, lastId, k) <==> s in sessions || lastId < s <= lastId + k
    decreases k
  {
    if k > 0 {
      AdmitManyMembers(sessions, lastId, k - 1);
    }
  }

  /** With every earlier id issued, each of the `k` accepts adds a session. */
  lemma {:induction false} AdmitManyCount(sessions: set<nat>, lastId: nat, k: nat)
    requires IdsIssued(sessions, lastId)
    ensures |AdmitMany(sessions, lastId, k)| == |sessions| + k
    decreases k
  {
    if k > 0 {
      var prev := AdmitMany(sessions, lastId, k - 1);
      AdmitManyCount(sessions, lastId, k - 1);
      AdmitManyMembers(sessions, lastId, k - 1);
      assert lastId + k !in prev;
      assert AdmitMany(sessions, lastId, k) == prev + {lastId + k};
    }
  }

  /** Before its due time a collection changes nothing; when due, it erases
    * exactly the queued ids and is not due again for one second. */
  lemma CollectErasesQueued(c: Collector, queued: set<nat>, now: nat)
    ensures !Due(c, now) ==> Collect(c, queued, now) == c
    ensures Due(c, now) ==>
      (forall s :: s in Collect(c, queued, now).sessions <==> s in c.sessions && s !in queued)
    ensures Due(c, now) ==> Collect(c, queued, now).nextCollection == now + GARBAGE_COLLECTION_FREQUENCY
  {
  }

  /** Collections are throttled: after one at `now`, any at a time less than
    * a second later does nothing, whatever is queued by then. */
  lemma CollectThrottled(c: Collector, q1: set<nat>, q2: set<nat>, now: nat, later: nat)
    requires Due(c, now) && later < now + GARBAGE_COLLECTION_FREQUENCY
    ensures Collect(Collect(c, q1, now), q2, later) == Collect(c, q1, now)
  {
  }

  /** Erasing sessions keeps every live id issued. */
  lemma CollectKeepsIssued(c: Collector, queued: set<nat>, now: nat, lastId: nat)
    requires IdsIssued(c.sessions, lastId)
    ensures IdsIssued(Collect(c, queued, now).sessions, lastId)
    ensures Collect(c, queued, now).sessions <= c.sessions
  {
  }
}

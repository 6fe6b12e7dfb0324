// The registry that every client session of the proxy shares: the configured
// users, the one-to-one binding between logged-on usernames and session ids,
// the queue of sessions waiting to be garbage collected, the session and
// request id counters, the symbol filter and the set of known symbols.
//
// The registry's state is described by the value type `Registry` and the pure
// functions below; the class `Shared` holds the same state in fields and each
// of its methods is proved to move `Model()` exactly as the matching function
// says.

module SessionRegistry {
  import opened Common
  import Error

  datatype User = User(username: string, password: string, strategyId: nat)

  datatype Credential = Credential(password: string, strategyId: nat)

  datatype Registry = Registry(
    credentials: map<string, Credential>,
    userToSession: map<string, nat>,
    sessionToUser: map<nat, string>,
    toRemove: set<nat>,
    nextSessionId: nat,
    nextRequestId: nat,
    // The symbols the JSON session's REST resource lists; no operation of
    // the proxy adds to it (the controller's handler that would is
    // commented out), so every transition keeps it.
    symbols: set<string>)

  datatype LogonOutcome = LoggedOn(strategyId: nat) | LogonFailed(reason: string)

  datatype LogoutOutcome = LoggedOut | LogoutFailed(reason: string)

  // ---------------------------------------------------------------------------
  // Configuration

  /** The username -> (password, strategy id) table built from the configured
    * users; when a username is configured twice the first entry wins. */
  function CredentialTable(users: seq<User>): (t: map<string, Credential>)
    ensures forall u :: u in t <==> exists i :: 0 <= i < |users| && users[i].username == u
    decreases |users|
  {
    if |users| == 0 then map[]
    else
      var t := CredentialTable(users[..|users| - 1]);
      var last := users[|users| - 1];
      if last.username in t then t else t[last.username := Credential(last.password, last.strategyId)]
  }

  /** The first configured user with a given name is the one whose password and
    * strategy id the table keeps. */
  lemma {:induction false} CredentialTableFirstWins(users: seq<User>, i: nat)
    requires i < |users|
    requires forall j :: 0 <= j < i ==> users[j].username != users[i].username
    ensures CredentialTable(users)[users[i].username] == Credential(users[i].password, users[i].strategyId)
    decreases |users|
  {
    var u := users[i].username;
    var prefix := users[..|users| - 1];
    if i < |users| - 1 {
      assert prefix[i] == users[i];
      CredentialTableFirstWins(prefix, i);
    }
  }

  /** A freshly constructed registry: nobody logged on, nothing queued, session
    * ids start at zero and request ids at the value read from the clock. */
  function Initial(users: seq<User>, clockNow: nat): (r: Registry)
    ensures Bijective(r)
    ensures r.userToSession == map[] && r.sessionToUser == map[] && r.toRemove == {}
    ensures r.nextSessionId == 0 && r.nextRequestId == clockNow && r.symbols == {}
  {
    Registry(CredentialTable(users), map[], map[], {}, 0, clockNow, {})
  }

  // ---------------------------------------------------------------------------
  // Invariant

  /** The two binding maps are inverse to each other. */
  ghost predicate Bijective(r: Registry)
  {
    (forall u :: u in r.userToSession ==>
       r.userToSession[u] in r.sessionToUser && r.sessionToUser[r.userToSession[u]] == u) &&
    (forall s :: s in r.sessionToUser ==>
       r.sessionToUser[s] in r.userToSession && r.userToSession[r.sessionToUser[s]] == s)
  }

  // ---------------------------------------------------------------------------
  // Operations

  /** What the logon checks decide: the password must match the configured
    * user, and the user must not already be bound to a session. */
  function LogonOutcomeOf(r: Registry, username: string, password: string): LogonOutcome
  {
    if username !in r.credentials || password != r.credentials[username].password then
      LogonFailed(Error.INVALID_PASSWORD)
    else if username in r.userToSession then
      LogonFailed(Error.ALREADY_LOGGED_ON)
    else
      LoggedOn(r.credentials[username].strategyId)
  }

  /** The registry after a logon attempt; both maps are updated with
    * insert-if-absent semantics. */
  function Logon(r: Registry, sessionId: nat, username: string, password: string): Registry
  {
    if LogonOutcomeOf(r, username, password).LoggedOn? then
      r.(userToSession := r.userToSession[username := sessionId],
         sessionToUser := if sessionId in r.sessionToUser then r.sessionToUser
                          else r.sessionToUser[sessionId := username])
    else r
  }

  function LogoutOutcomeOf(r: Registry, sessionId: nat): LogoutOutcome
  {
    if sessionId in r.sessionToUser then LoggedOut else LogoutFailed(Error.NOT_LOGGED_ON)
  }

  /** Drop the binding of a session, if it has one. */
  function Unbind(r: Registry, sessionId: nat): Registry
  {
    if sessionId in r.sessionToUser then
      r.(userToSession := r.userToSession - {r.sessionToUser[sessionId]},
         sessionToUser := r.sessionToUser - {sessionId})
    else r
  }

  function Logout(r: Registry, sessionId: nat): Registry
  {
    Unbind(r, sessionId)
  }

  /** A session that has gone away: queue it for garbage collection and drop
    * its binding. */
  function Remove(r: Registry, sessionId: nat): Registry
  {
    Unbind(r.(toRemove := r.toRemove + {sessionId}), sessionId)
  }

  /** Garbage collection of the queue: every queued session loses its binding
    * and the queue is emptied. */
  function Cleanup(r: Registry): Registry
  {
    UnbindAll(r, r.toRemove).(toRemove := {})
  }

  /** Drop the bindings of every session in `ids`. */
  function UnbindAll(r: Registry, ids: set<nat>): Registry
  {
    r.(userToSession := map u | u in r.userToSession && r.userToSession[u] !in ids :: r.userToSession[u],
       sessionToUser := r.sessionToUser - ids)
  }

  /** `session_remove` of each of `ids`, in any order: all queued, all
    * unbound. */
  function RemoveAll(r: Registry, ids: set<nat>): Registry
  {
    UnbindAll(r, ids).(toRemove := r.toRemove + ids)
  }

  function Find(r: Registry, username: string): Option<nat>
  {
    if username in r.userToSession then Some(r.userToSession[username]) else None
  }

  /** The text of the request id built from counter value `n`. */
  function RequestId(n: nat): (id: string)
    ensures |id| > 6 && id[..6] == "proxy-"
  {
    "proxy-" + Decimal(n)
  }

  function NextRequestId(r: Registry): Registry
  {
    r.(nextRequestId := r.nextRequestId + 1)
  }

  /** True when one of the configured symbol patterns matches. */
  predicate Included(patterns: seq<string -> bool>, symbol: string)
  {
    exists i :: 0 <= i < |patterns| && patterns[i](symbol)
  }

  // ---------------------------------------------------------------------------
  // Properties

  /** A successful logon binds the username and the session to each other,
    * keeps the maps inverse and touches no other binding; a failed one
    * changes nothing. */
  lemma LogonBinds(r: Registry, sessionId: nat, username: string, password: string)
    requires Bijective(r)
    requires sessionId !in r.sessionToUser
    ensures var r' := Logon(r, sessionId, username, password);
      Bijective(r') &&
      (LogonOutcomeOf(r, username, password).LoggedOn? ==>
         r'.userToSession == r.userToSession[username := sessionId] &&
         r'.sessionToUser == r.sessionToUser[sessionId := username]) &&
      (LogonOutcomeOf(r, username, password).LogonFailed? ==> r' == r)
  {
    var r' := Logon(r, sessionId, username, password);
    if LogonOutcomeOf(r, username, password).LoggedOn? {
      assert username !in r.userToSession;
      forall u | u in r'.userToSession
        ensures r'.userToSession[u] in r'.sessionToUser && r'.sessionToUser[r'.userToSession[u]] == u
      {
        if u != username {
          assert r.userToSession[u] in r.sessionToUser;
        }
      }
      forall s | s in r'.sessionToUser
        ensures r'.sessionToUser[s] in r'.userToSession && r'.userToSession[r'.sessionToUser[s]] == s
      {
        if s != sessionId {
          assert r.sessionToUser[s] in r.userToSession;
          assert r.sessionToUser[s] != username;
        }
      }
    }
  }

  /** Logon succeeds exactly when the password matches a configured user that
    * is not yet bound, and then reports that user's strategy id. */
  lemma LogonSucceedsIff(r: Registry, username: string, password: string)
    ensures LogonOutcomeOf(r, username, password).LoggedOn? <==>
      (username in r.credentials && r.credentials[username].password == password &&
       username !in r.userToSession)
    ensures LogonOutcomeOf(r, username, password).LoggedOn? ==>
      LogonOutcomeOf(r, username, password).strategyId == r.credentials[username].strategyId
  {
  }

  /** A username is bound to at most one session: once a logon succeeded,
    * every further logon of the same username is refused. */
  lemma SecondLogonRefused(r: Registry, s1: nat, s2: nat, username: string, p1: string, p2: string)
    requires LogonOutcomeOf(r, username, p1).LoggedOn?
    ensures LogonOutcomeOf(Logon(r, s1, username, p1), username, p2).LogonFailed?
    ensures Logon(Logon(r, s1, username, p1), s2, username, p2) == Logon(r, s1, username, p1)
  {
  }

  /** Logout undoes logon: a session that logged on and then logged out leaves
    * the registry as it found it. */
  lemma LogoutUndoesLogon(r: Registry, sessionId: nat, username: string, password: string)
    requires Bijective(r)
    requires sessionId !in r.sessionToUser
    requires LogonOutcomeOf(r, username, password).LoggedOn?
    ensures LogoutOutcomeOf(Logon(r, sessionId, username, password), sessionId) == LoggedOut
    ensures Logout(Logon(r, sessionId, username, password), sessionId) == r
  {
    var r1 := Logon(r, sessionId, username, password);
    var r2 := Logout(r1, sessionId);
    assert r1.sessionToUser[sessionId] == username;
    assert r2.userToSession == r.userToSession;
    assert r2.sessionToUser == r.sessionToUser;
  }

  /** Dropping a binding keeps the maps inverse, leaves the session and its
    * user unbound, and leaves every other binding alone. */
  lemma UnbindKeepsBijection(r: Registry, sessionId: nat)
    requires Bijective(r)
    ensures var r' := Unbind(r, sessionId);
      Bijective(r') && sessionId !in r'.sessionToUser &&
      (sessionId in r.sessionToUser ==> r.sessionToUser[sessionId] !in r'.userToSession) &&
      (forall s :: s in r.sessionToUser && s != sessionId ==>
         s in r'.sessionToUser && r'.sessionToUser[s] == r.sessionToUser[s]) &&
      r'.toRemove == r.toRemove
  {
    var r' := Unbind(r, sessionId);
    if sessionId in r.sessionToUser {
      var u := r.sessionToUser[sessionId];
      forall v | v in r'.userToSession
        ensures r'.userToSession[v] in r'.sessionToUser && r'.sessionToUser[r'.userToSession[v]] == v
      {
        assert r.sessionToUser[r.userToSession[v]] == v;
      }
      forall s | s in r'.sessionToUser
        ensures r'.sessionToUser[s] in r'.userToSession && r'.userToSession[r'.sessionToUser[s]] == s
      {
        assert r.userToSession[r.sessionToUser[s]] == s;
      }
    }
  }

  /** Logging out reports NOT_LOGGED_ON exactly for a session that has no
    * binding, and then changes nothing. */
  lemma LogoutRefusedIffUnbound(r: Registry, sessionId: nat)
    ensures LogoutOutcomeOf(r, sessionId) == LogoutFailed(Error.NOT_LOGGED_ON) <==> sessionId !in r.sessionToUser
    ensures sessionId !in r.sessionToUser ==> Logout(r, sessionId) == r
  {
  }

  /** Removing a session queues it and unbinds it; removing it again changes
    * nothing more. */
  lemma RemoveQueuesAndIsIdempotent(r: Registry, sessionId: nat)
    requires Bijective(r)
    ensures var r' := Remove(r, sessionId);
      Bijective(r') && sessionId in r'.toRemove && sessionId !in r'.sessionToUser &&
      Remove(r', sessionId) == r'
  {
    UnbindKeepsBijection(r.(toRemove := r.toRemove + {sessionId}), sessionId);
  }

  /** After garbage collection the queue is empty, none of the collected
    * sessions is bound, the maps are still inverse, and sessions that were not
    * queued keep their binding. */
  lemma CleanupUnbindsQueued(r: Registry)
    requires Bijective(r)
    ensures var r' := Cleanup(r);
      Bijective(r') && r'.toRemove == {} &&
      (forall s :: s in r.toRemove ==> s !in r'.sessionToUser) &&
      (forall s :: s in r.sessionToUser && s !in r.toRemove ==>
         s in r'.sessionToUser && r'.sessionToUser[s] == r.sessionToUser[s])
  {
    var r' := Cleanup(r);
    UnbindAllKeepsBijection(r, r.toRemove);
  }

  lemma UnbindAllKeepsBijection(r: Registry, ids: set<nat>)
    requires Bijective(r)
    ensures Bijective(UnbindAll(r, ids))
  {
    var r' := UnbindAll(r, ids);
    forall s | s in r'.sessionToUser
      ensures r'.sessionToUser[s] in r'.userToSession && r'.userToSession[r'.sessionToUser[s]] == s
    {
      assert r.userToSession[r.sessionToUser[s]] == s;
    }
  }

  /** Looking up a username finds the session bound to it, and under the
    * invariant that session is bound back to the same username. */
  lemma FindAgreesWithBinding(r: Registry, username: string)
    requires Bijective(r)
    ensures Find(r, username).None? <==> username !in r.userToSession
    ensures Find(r, username).Some? ==>
      Find(r, username).value in r.sessionToUser && r.sessionToUser[Find(r, username).value] == username
  {
  }

  /** Request ids taken from distinct counter values are distinct. */
  lemma RequestIdInjective(a: nat, b: nat)
    requires RequestId(a) == RequestId(b)
    ensures a == b
  {
    assert Decimal(a) == RequestId(a)[6..] == RequestId(b)[6..] == Decimal(b);
    DecimalInjective(a, b);
  }

  /** Unbinding the sessions one at a time, in any order, ends where
    * unbinding them all at once does. */
  lemma UnbindOneMore(r: Registry, done: set<nat>, s: nat)
    requires Bijective(r)
    ensures Unbind(UnbindAll(r, done), s) == UnbindAll(r, done + {s})
  {
    var a := Unbind(UnbindAll(r, done), s);
    var b := UnbindAll(r, done + {s});
    if s in r.sessionToUser && s !in done {
      var u := r.sessionToUser[s];
      assert a.userToSession == b.userToSession by {
        forall v ensures v in a.userToSession <==> v in b.userToSession {
          if v in r.userToSession && r.userToSession[v] == s {
            assert v == u;
          }
        }
      }
    } else if s in done {
      assert done + {s} == done;
    } else {
      assert a.userToSession == b.userToSession by {
        forall v | v in r.userToSession
          ensures r.userToSession[v] != s
        {
          assert r.userToSession[v] in r.sessionToUser;
        }
      }
    }
  }

  /** Removing the sessions of `done` and then `s` is removing `done + {s}`:
    * the order of the removals does not matter. */
  lemma RemoveOneMore(r: Registry, done: set<nat>, s: nat)
    requires Bijective(r)
    ensures Remove(RemoveAll(r, done), s) == RemoveAll(r, done + {s})
  {
    var y := UnbindAll(r, done);
    UnbindOneMore(r, done, s);
    assert Unbind(y.(toRemove := r.toRemove + done + {s}), s) == Unbind(y, s).(toRemove := r.toRemove + done + {s});
  }

  /** Successive request ids differ: the counter only grows between two
    * calls, so the id of a later call never equals an earlier one. */
  lemma SuccessiveRequestIdsDiffer(r: Registry)
    ensures RequestId(NextRequestId(r).nextRequestId) != RequestId(NextRequestId(NextRequestId(r)).nextRequestId)
  {
    if RequestId(NextRequestId(r).nextRequestId) == RequestId(NextRequestId(NextRequestId(r)).nextRequestId) {
      RequestIdInjective(NextRequestId(r).nextRequestId, NextRequestId(NextRequestId(r)).nextRequestId);
    }
  }

  // ---------------------------------------------------------------------------
  // The shared object

  class Shared {
    const credentials: map<string, Credential>
    /** The compiled symbol patterns, each given by its match predicate. */
    const patterns: seq<string -> bool>
    var nextSessionId: nat
    var symbols: set<string>
    var userToSession: map<string, nat>
    var sessionToUser: map<nat, string>
    var toRemove: set<nat>
    var nextRequestId: nat

    ghost function Model(): Registry
      reads this
    {
      Registry(credentials, userToSession, sessionToUser, toRemove, nextSessionId, nextRequestId, symbols)
    }

    ghost predicate Valid()
      reads this
    {
      Bijective(Model())
    }

    /** `clockNow` is the realtime clock reading that seeds the request id
      * counter. */
    constructor(users: seq<User>, patterns: seq<string -> bool>, clockNow: nat)
      ensures Model() == Initial(users, clockNow) && Valid()
      ensures this.patterns == patterns
    {
      credentials := CredentialTable(users);
      this.patterns := patterns;
      nextSessionId := 0;
      symbols := {};
      userToSession := map[];
      sessionToUser := map[];
      toRemove := {};
      nextRequestId := clockNow;
    }

    method Include(symbol: string) returns (found: bool)
      ensures found <==> Included(patterns, symbol)
    {
      var i := 0;
      while i < |patterns|
        invariant i <= |patterns|
        invariant forall j :: 0 <= j < i ==> !patterns[j](symbol)
      {
        if patterns[i](symbol) {
          return true;
        }
        i := i + 1;
      }
      return false;
    }

    method LogonHelper(sessionId: nat, username: string, password: string)
        returns (error: string, strategyId: nat)
      requires Valid() && sessionId !in sessionToUser
      modifies this
      ensures Valid()
      ensures Model() == Logon(old(Model()), sessionId, username, password)
      ensures match LogonOutcomeOf(old(Model()), username, password)
        case LoggedOn(id) => error == "" && strategyId == id
        case LogonFailed(reason) => error == reason
    {
      LogonBinds(Model(), sessionId, username, password);
      if username !in credentials || password != credentials[username].password {
        return Error.INVALID_PASSWORD, 0;
      }
      if username in userToSession {
        return Error.ALREADY_LOGGED_ON, 0;
      }
      userToSession := userToSession[username := sessionId];
      if sessionId !in sessionToUser {
        sessionToUser := sessionToUser[sessionId := username];
      }
      return "", credentials[username].strategyId;
    }

    /** Exactly one of the two continuations runs: the outcome says which. */
    method SessionLogon(sessionId: nat, username: string, password: string) returns (outcome: LogonOutcome)
      requires Valid() && sessionId !in sessionToUser
      modifies this
      ensures Valid()
      ensures Model() == Logon(old(Model()), sessionId, username, password)
      ensures outcome == LogonOutcomeOf(old(Model()), username, password)
    {
      var error, strategyId := LogonHelper(sessionId, username, password);
      if error == "" {
        outcome := LoggedOn(strategyId);
      } else {
        outcome := LogonFailed(error);
      }
    }

    method LogoutHelper(sessionId: nat) returns (error: string)
      requires Valid()
      modifies this
      ensures Valid()
      ensures Model() == Logout(old(Model()), sessionId)
      ensures error == (if sessionId in old(sessionToUser) then "" else Error.NOT_LOGGED_ON)
    {
      UnbindKeepsBijection(Model(), sessionId);
      if sessionId !in sessionToUser {
        return Error.NOT_LOGGED_ON;
      }
      var username := sessionToUser[sessionId];
      userToSession := userToSession - {username};
      sessionToUser := sessionToUser - {sessionId};
      return "";
    }

    method SessionLogout(sessionId: nat) returns (outcome: LogoutOutcome)
      requires Valid()
      modifies this
      ensures Valid()
      ensures Model() == Logout(old(Model()), sessionId)
      ensures outcome == LogoutOutcomeOf(old(Model()), sessionId)
    {
      var error := LogoutHelper(sessionId);
      if error == "" {
        outcome := LoggedOut;
      } else {
        outcome := LogoutFailed(error);
      }
    }

    method RemoveHelper(sessionId: nat)
      requires Valid()
      modifies this
      ensures Valid()
      ensures Model() == Unbind(old(Model()), sessionId)
    {
      UnbindKeepsBijection(Model(), sessionId);
      if sessionId in sessionToUser {
        var username := sessionToUser[sessionId];
        userToSession := userToSession - {username};
        sessionToUser := sessionToUser - {sessionId};
      }
    }

    method SessionRemove(sessionId: nat)
      requires Valid()
      modifies this
      ensures Valid()
      ensures Model() == Remove(old(Model()), sessionId)
    {
      toRemove := toRemove + {sessionId};
      RemoveHelper(sessionId);
    }

    /** Unbinds every queued session, hands each queued id to the caller's
      * callback exactly once (the returned sequence, in the order of the
      * calls) and empties the queue. */
    method SessionCleanup() returns (collected: seq<nat>)
      requires Valid()
      modifies this
      ensures Valid()
      ensures Model() == Cleanup(old(Model()))
      ensures forall s :: s in collected <==> s in old(toRemove)
      ensures |collected| == |old(toRemove)|
    {
      ghost var r0 := Model();
      collected := UnbindQueued();
      toRemove := {};
      UnbindAllKeepsBijection(r0, r0.toRemove);
    }

    /** The loop of the cleanup: one queued session at a time. */
    method UnbindQueued() returns (collected: seq<nat>)
      requires Valid()
      modifies this
      ensures Model() == UnbindAll(old(Model()), old(toRemove))
      ensures forall s :: s in collected <==> s in old(toRemove)
      ensures |collected| == |old(toRemove)|
    {
      ghost var r0 := Model();
      var pending := toRemove;
      collected := [];
      while pending != {}
        invariant pending <= r0.toRemove
        invariant Model() == UnbindAll(r0, r0.toRemove - pending)
        invariant forall s :: s in collected <==> s in r0.toRemove && s !in pending
        invariant |collected| + |pending| == |r0.toRemove|
        decreases |pending|
      {
        var sessionId :| sessionId in pending;
        ghost var done := r0.toRemove - pending;
        UnbindNext(r0, done, sessionId);
        collected := collected + [sessionId];
        pending := pending - {sessionId};
        assert done + {sessionId} == r0.toRemove - pending;
      }
      assert r0.toRemove - pending == r0.toRemove;
    }

    /** One turn of the cleanup loop: after the sessions `done`, unbind
      * `sessionId` too. */
    method UnbindNext(ghost r0: Registry, ghost done: set<nat>, sessionId: nat)
      requires Bijective(r0) && Model() == UnbindAll(r0, done)
      modifies this
      ensures Model() == UnbindAll(r0, done + {sessionId})
    {
      UnbindAllKeepsBijection(r0, done);
      RemoveHelper(sessionId);
      UnbindOneMore(r0, done, sessionId);
    }

    method SessionFind(username: string) returns (found: Option<nat>)
      requires Valid()
      ensures found.None? <==> username !in userToSession
      ensures found.Some? ==> found.value in sessionToUser && sessionToUser[found.value] == username
    {
      if username !in userToSession {
        return None;
      }
      return Some(userToSession[username]);
    }

    method CreateRequestId() returns (id: string)
      modifies this
      ensures Model() == NextRequestId(old(Model()))
      ensures id == RequestId(nextRequestId) && nextRequestId == old(nextRequestId) + 1
    {
      nextRequestId := nextRequestId + 1;
      id := "proxy-" + Decimal(nextRequestId);
    }
  }
}

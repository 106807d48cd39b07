/**
 The broker itself: its critical sections, step by step, with the loops of the code over its three
 tables in whatever order the entries come, proved equal to the functions of BrokerTables.

 The clock, the liveness of processes and the random source are parameters: `now`, the set `dead`
 of processes that no longer run, and the identifier drawn, if the draw succeeds.
 */
module Brokers {
  import opened Wrappers
  import opened Approval
  import P = Provider
  import opened BrokerTables
  import opened Listings

  /** The in-flight requests of the given sessions whose process is gone. */
  function Orphans(inflight: map<Id, Inflight>, keys: set<SessionKey>, dead: set<Identity>): set<Id> {
    set id | id in inflight && inflight[id].Key() in keys && inflight[id].process in dead
  }

  lemma OneMoreOrphaned(ended: P.Contexts, inflight: map<Id, Inflight>, keys: set<SessionKey>, key: SessionKey, dead: set<Identity>)
    ensures P.Cancel(ended, Orphans(inflight, keys + {key}, dead)) ==
            var before := P.Cancel(ended, Orphans(inflight, keys, dead));
            if key.process in dead then P.Cancel(before, set id | id in inflight && inflight[id].Key() == key) else before
  {
    var more := set id | id in inflight && inflight[id].Key() == key;
    if key.process in dead {
      CancelTwice(ended, Orphans(inflight, keys, dead), more);
      assert Orphans(inflight, keys, dead) + more == Orphans(inflight, keys + {key}, dead);
    } else {
      assert Orphans(inflight, keys, dead) == Orphans(inflight, keys + {key}, dead);
    }
  }

  /** The requests of a session that a loop over the in-flight table has come past. */
  ghost function Handled(inflight: map<Id, Inflight>, todo: set<Id>, key: SessionKey): set<Id> {
    set id | id in inflight && id !in todo && inflight[id].Key() == key
  }

  lemma NoneHandled(ended: P.Contexts, inflight: map<Id, Inflight>, key: SessionKey)
    ensures P.Cancel(ended, Handled(inflight, inflight.Keys, key)) == ended
    ensures Handled(inflight, {}, key) == set id | id in inflight && inflight[id].Key() == key
  {
    assert Handled(inflight, inflight.Keys, key) == {};
  }

  lemma OneHandled(ended: P.Contexts, inflight: map<Id, Inflight>, todo: set<Id>, key: SessionKey, id: Id)
    requires id in todo && id in inflight
    ensures P.Cancel(ended, Handled(inflight, todo - {id}, key)) ==
            if inflight[id].Key() == key then P.Cancel(P.Cancel(ended, Handled(inflight, todo, key)), {id})
            else P.Cancel(ended, Handled(inflight, todo, key))
  {
    var done, more := Handled(inflight, todo, key), Handled(inflight, todo - {id}, key);
    if inflight[id].Key() == key {
      assert more == done + {id};
      CancelTwice(ended, done, {id});
    } else {
      assert more == done;
    }
  }

  class Broker {
    const cfg: Config
    const provider: P.ManualProvider
    const contexts: P.ContextTable
    var sessions: map<SessionKey, Session>
    var inflight: map<Id, Inflight>
    var leases: map<Id, Lease>

    predicate Valid()
      reads this, provider
    {
      Keyed(sessions) && provider.Valid() && provider.contexts == contexts
    }

    function View(): Tables
      reads this, contexts
    {
      Tables(sessions, inflight, leases, contexts.ended)
    }

    constructor (cfg: Config)
      ensures Valid() && View() == Tables(map[], map[], map[], map[]) && provider.pending == map[] && this.cfg == cfg
    {
      var table := new P.ContextTable();
      var manual := new P.ManualProvider(table);
      this.cfg := cfg;
      provider := manual;
      contexts := table;
      sessions := map[];
      inflight := map[];
      leases := map[];
    }

    method CancelPendingLocked(key: SessionKey)
      modifies contexts
      ensures View() == CancelPending(old(View()), key)
    {
      var todo := inflight.Keys;
      ghost var before := contexts.ended;
      NoneHandled(before, inflight, key);
      while todo != {}
        invariant todo <= inflight.Keys
        invariant contexts.ended == P.Cancel(before, Handled(inflight, todo, key))
      {
        var id :| id in todo;
        OneHandled(before, inflight, todo, key, id);
        todo := todo - {id};
        if inflight[id].process == key.process && inflight[id].sessionId == key.sessionId {
          contexts.CancelContext(id);
        }
      }
    }

    method RevokeMessageLeasesLocked(key: SessionKey)
      modifies this`leases
      ensures View() == RevokeMessageLeases(old(View()), key)
    {
      var todo := leases.Keys;
      ghost var before := leases;
      while todo != {}
        invariant todo <= leases.Keys <= before.Keys
        invariant forall id | id in before ::
                    (id in leases <==> id in todo || !(before[id].scope == MessageScope && before[id].Key() == key))
        invariant forall id | id in leases :: leases[id] == before[id]
      {
        var id :| id in todo;
        todo := todo - {id};
        var lease := leases[id];
        if lease.scope == MessageScope && lease.process == key.process && lease.sessionId == key.sessionId {
          leases := leases - {id};
        }
      }
    }

    /** Deletes every lease of one session. */
    method DropLeasesLocked(key: SessionKey)
      modifies this`leases
      ensures leases == map id | id in old(leases) && old(leases)[id].Key() != key :: old(leases)[id]
    {
      var todo := leases.Keys;
      ghost var before := leases;
      while todo != {}
        invariant todo <= leases.Keys <= before.Keys
        invariant forall id | id in before :: (id in leases <==> id in todo || before[id].Key() != key)
        invariant forall id | id in leases :: leases[id] == before[id]
      {
        var id :| id in todo;
        todo := todo - {id};
        var lease := leases[id];
        if lease.process == key.process && lease.sessionId == key.sessionId {
          leases := leases - {id};
        }
      }
    }

    method RemoveSessionLocked(key: SessionKey)
      modifies this`sessions, this`leases, contexts
      ensures View() == RemoveSession(old(View()), key)
    {
      sessions := sessions - {key};
      DropLeasesLocked(key);
      CancelPendingLocked(key);
    }

    /** First loop of a sweep: leases whose time is up or whose process is gone. */
    method PruneLeasesLocked(now: Time, dead: set<Identity>)
      modifies this`leases
      ensures leases == Sweep(old(View()), now, dead).leases
    {
      var todo := leases.Keys;
      ghost var before := leases;
      while todo != {}
        invariant todo <= leases.Keys <= before.Keys
        invariant forall id | id in before ::
                    (id in leases <==> id in todo || (before[id].expiresAt > now && before[id].process !in dead))
        invariant forall id | id in leases :: leases[id] == before[id]
      {
        var id :| id in todo;
        todo := todo - {id};
        if !(leases[id].expiresAt > now) || leases[id].process in dead {
          leases := leases - {id};
        }
      }
    }

    /** Second loop: sessions whose process is gone, with their leases and their requests. */
    method PruneSessionsLocked(dead: set<Identity>)
      requires Keyed(sessions) && forall id | id in leases :: leases[id].process !in dead
      modifies this`sessions, this`leases, contexts
      ensures leases == old(leases)
      ensures sessions == map key | key in old(sessions) && key.process !in dead :: old(sessions)[key]
      ensures contexts.ended == P.Cancel(old(contexts.ended), Orphans(inflight, old(sessions).Keys, dead))
    {
      var todo := sessions.Keys;
      ghost var before, ended := sessions, contexts.ended;
      assert P.Cancel(ended, Orphans(inflight, {}, dead)) == ended;
      assert before.Keys - todo == {};
      while todo != {}
        invariant todo <= sessions.Keys <= before.Keys && leases == old(leases)
        invariant forall key | key in before :: (key in sessions <==> key in todo || key.process !in dead)
        invariant forall key | key in sessions :: sessions[key] == before[key]
        invariant contexts.ended == P.Cancel(ended, Orphans(inflight, before.Keys - todo, dead))
      {
        var key :| key in todo;
        ghost var seen := before.Keys - todo;
        todo := todo - {key};
        var session := sessions[key];
        OneMoreOrphaned(ended, inflight, seen, key, dead);
        assert before.Keys - todo == seen + {key};
        if session.process in dead {
          sessions := sessions - {key};
          DropLeasesLocked(key);
          CancelPendingLocked(key);
        }
      }
      assert before.Keys - todo == before.Keys;
    }

    /** Third loop: requests whose time is up. */
    method PruneRequestsLocked(now: Time)
      modifies contexts
      ensures contexts.ended == P.Cancel(old(contexts.ended), set id | id in inflight && inflight[id].expiresAt <= now)
    {
      var todo := inflight.Keys;
      ghost var before := contexts.ended;
      assert P.Cancel(before, {}) == before;
      while todo != {}
        invariant todo <= inflight.Keys
        invariant contexts.ended == P.Cancel(before, set id | id in inflight && id !in todo && inflight[id].expiresAt <= now)
      {
        var id :| id in todo;
        ghost var done := set id | id in inflight && id !in todo && inflight[id].expiresAt <= now;
        todo := todo - {id};
        if !(inflight[id].expiresAt > now) {
          contexts.CancelContext(id);
          CancelTwice(before, done, {id});
          assert done + {id} == set id | id in inflight && id !in todo && inflight[id].expiresAt <= now;
        } else {
          assert done == set id | id in inflight && id !in todo && inflight[id].expiresAt <= now;
        }
      }
    }

    method PruneLocked(now: Time, dead: set<Identity>)
      requires Keyed(sessions)
      modifies this`sessions, this`leases, contexts
      ensures View() == Sweep(old(View()), now, dead)
    {
      PruneLeasesLocked(now, dead);
      PruneSessionsLocked(dead);
      PruneRequestsLocked(now);
      ghost var t := old(View());
      ghost var gone := Orphans(inflight, t.sessions.Keys, dead);
      ghost var late := set id | id in inflight && inflight[id].expiresAt <= now;
      CancelTwice(t.ended, gone, late);
      assert gone + late == Doomed(t, now, dead);
    }

    method HandleLifecycle(now: Time, dead: set<Identity>, process: Identity, event: LifecycleEvent)
      returns (error: Option<ErrorCode>)
      requires Valid()
      modifies this`sessions, this`leases, contexts
      ensures Valid()
      ensures (View(), error) == Lifecycle(old(View()), now, dead, process, event)
    {
      if !event.Valid() {
        return Some(InvalidLifecycle);
      }
      PruneLocked(now, dead);
      var key := SessionKey(process, event.sessionId);
      match event.kind {
        case SessionStarted =>
          if key !in sessions {
            sessions := sessions[key := Session(process, event.sessionId, 0, false, now)];
          } else {
            sessions := sessions[key := sessions[key].(updatedAt := now)];
          }
        case TurnStarted =>
          if key !in sessions {
            return Some(LifecycleOutOfOrder);
          }
          if sessions[key].active {
            sessions := sessions[key := sessions[key].(active := false, updatedAt := now)];
            RevokeMessageLeasesLocked(key);
            CancelPendingLocked(key);
            return Some(LifecycleAmbiguous);
          }
          CancelPendingLocked(key);
          sessions := sessions[key := sessions[key].(turn := sessions[key].turn + 1, active := true, updatedAt := now)];
          RevokeMessageLeasesLocked(key);
        case TurnEnded =>
          if key !in sessions {
            return Some(LifecycleOutOfOrder);
          }
          sessions := sessions[key := sessions[key].(active := false, updatedAt := now)];
          RevokeMessageLeasesLocked(key);
          CancelPendingLocked(key);
        case SessionEnded =>
          RemoveSessionLocked(key);
        case UnknownKind(_) =>
      }
      return None;
    }

    /** The one session of the process with an open turn. */
    method ActiveSessionLocked(process: Identity) returns (found: Option<Session>)
      requires Valid()
      ensures found == match ActiveSession(View(), process) case None => None case Some(key) => Some(sessions[key])
    {
      var todo := sessions.Keys;
      found := None;
      while todo != {}
        invariant todo <= sessions.Keys
        invariant found.None? ==> forall key | key in sessions && key !in todo :: !(sessions[key].process == process && sessions[key].active)
        invariant found.Some? ==> found.value.Key() in sessions && found.value.Key() !in todo && sessions[found.value.Key()] == found.value
                                  && found.value.process == process && found.value.active
        invariant found.Some? ==> forall key | key in sessions && key !in todo && sessions[key].process == process && sessions[key].active ::
                                    key == found.value.Key()
      {
        var key :| key in todo;
        todo := todo - {key};
        var session := sessions[key];
        if session.process == process && session.active {
          if found.Some? {
            assert forall k :: !OnlyActive(View(), process, k);
            return None;
          }
          found := Some(session);
        }
      }
      if found.Some? {
        assert OnlyActive(View(), process, found.value.Key());
      }
    }

    /** Some lease that matches; which one is left open, as the code leaves it to the map. */
    method MatchingLeaseLocked(session: Session, now: Time) returns (found: Option<Id>)
      ensures found.None? <==> !SomeMatch(View(), session, now)
      ensures found.Some? ==> found.value in leases && Matches(leases[found.value], session, now)
    {
      var todo := leases.Keys;
      while todo != {}
        invariant todo <= leases.Keys
        invariant forall id | id in leases && id !in todo :: !Matches(leases[id], session, now)
      {
        var id :| id in todo;
        todo := todo - {id};
        var lease := leases[id];
        if !(lease.expiresAt > now) || lease.process != session.process || lease.sessionId != session.sessionId {
          continue;
        }
        if lease.scope == SessionScope || (lease.scope == MessageScope && lease.turn.Some? && lease.turn.value == session.turn) {
          return Some(id);
        }
      }
      return None;
    }

    method EnsureLeaseLocked(request: Request, decision: Decision, now: Time, drawn: Option<Id>) returns (error: Option<ErrorCode>)
      modifies this`leases
      ensures (View(), error) == EnsureLease(old(View()), cfg, request, decision, now, drawn)
    {
      if decision.scope == CommandScope {
        return None;
      }
      var todo := leases.Keys;
      while todo != {}
        invariant todo <= leases.Keys
        invariant forall id | id in leases && id !in todo :: !Subsumes(leases[id], request, decision, now)
      {
        var id :| id in todo;
        todo := todo - {id};
        var lease := leases[id];
        if !(lease.expiresAt > now) || lease.process != request.process || lease.sessionId != request.sessionId {
          continue;
        }
        if lease.scope == SessionScope ||
           (decision.scope == MessageScope && lease.scope == MessageScope && lease.turn.Some? && lease.turn.value == request.turn) {
          assert Subsumes(leases[id], request, decision, now);
          return None;
        }
      }
      var ttl := cfg.sessionTTL;
      var turn := None;
      if decision.scope == MessageScope {
        ttl := cfg.messageTTL;
        turn := Some(request.turn);
      }
      if drawn.None? {
        return Some(InternalError);
      }
      leases := leases[drawn.value := Lease(drawn.value, decision.scope, request.process, request.sessionId, turn,
        decision.provider, decision.principal, decision.approverUid, now, now + ttl)];
      return None;
    }

    /** First critical section of `Request`: an error, a lease, or a new request in flight. */
    method BeginRequest(now: Time, dead: set<Identity>, disconnected: bool, process: Identity, agentUid: nat, command: Command, drawn: Option<Id>)
      returns (lease: Option<Id>, request: Option<Request>, error: Option<ErrorCode>)
      requires Valid()
      modifies this`sessions, this`leases, this`inflight, contexts
      ensures Valid()
      ensures BeginSection(Sweep(old(View()), now, dead), View(), cfg, process, agentUid, command, disconnected, now, drawn, lease, request, error)
    {
      PruneLocked(now, dead);
      var session := ActiveSessionLocked(process);
      if session.None? {
        return None, None, Some(NoActiveTurn);
      }
      lease := MatchingLeaseLocked(session.value, now);
      if lease.Some? {
        return lease, None, None;
      }
      if drawn.None? {
        return None, None, Some(InternalError);
      }
      var r := Request(drawn.value, process, session.value.sessionId, session.value.turn, agentUid, command, now, now + cfg.requestTTL);
      inflight := inflight[r.id := Inflight(process, r.sessionId, r.expiresAt)];
      if disconnected {
        contexts.CancelContext(r.id);
      }
      return None, Some(r), None;
    }

    /** Last critical section of `Request`: whether the decision lets the command run. */
    method FinishRequest(now: Time, request: Request, decision: Decision, drawn: Option<Id>) returns (error: Option<ErrorCode>)
      requires Valid()
      modifies this`inflight, this`leases
      ensures Valid()
      ensures (View(), error) == FinishSection(old(View()), cfg, request, decision, now, drawn)
    {
      inflight := inflight - {request.id};
      if !decision.Valid() {
        return Some(InvalidProviderDecision);
      }
      if decision.outcome == Approved {
        if !ContextActive(sessions, request) {
          return Some(RequestEnded(Cancelled));
        }
        error := EnsureLeaseLocked(request, decision, now, drawn);
        return;
      }
      return Some(RequestEnded(decision.outcome));
    }

    /** `Decide`: sweep, let the provider answer, and make sure of the lease. */
    method Decide(now: Time, dead: set<Identity>, requestId: Id, outcome: Outcome, requestedScope: Scope, approverUid: nat, drawn: Option<Id>)
      returns (error: Option<ErrorCode>)
      requires Valid()
      modifies this`sessions, this`leases, contexts, provider`pending
      ensures Valid()
      ensures (View(), provider.pending, error) ==
              AnswerSection(Sweep(old(View()), now, dead), old(provider.pending), cfg, requestId, outcome, requestedScope, approverUid, now, drawn)
    {
      PruneLocked(now, dead);
      var reviewed := provider.ReviewRequest(requestId, outcome, requestedScope, approverUid);
      if reviewed.Failure? {
        return Some(reviewed.error);
      }
      var scope := requestedScope;
      if outcome == Denied {
        scope := CommandScope;
      }
      var (request, decision) := (reviewed.value.request, reviewed.value.decision);
      if !decision.Valid() || decision.outcome != outcome || decision.scope != scope {
        assert false;
      }
      if outcome == Approved {
        error := EnsureLeaseLocked(request, decision, now, drawn);
        return;
      }
      return None;
    }

    /** `Pending`: the provider's queue after a sweep of both. */
    method ListPending(now: Time, dead: set<Identity>) returns (listed: seq<Request>, ghost ids: seq<Id>)
      requires Valid()
      modifies this`sessions, this`leases, contexts, provider`pending
      ensures Valid()
      ensures (View(), provider.pending) == ListSection(old(View()), old(provider.pending), now, dead)
      ensures Lists(P.Requests(old(provider.pending)), old(provider.pending).Keys, ids, listed)
      ensures InOrder(listed, (r: Request) => r.createdAt)
    {
      PruneLocked(now, dead);
      listed, ids := provider.ListPending();
    }

    /** `Leases`: the leases that the sweep leaves. */
    method ListLeases(now: Time, dead: set<Identity>) returns (listed: seq<Lease>, ghost ids: seq<Id>)
      requires Valid()
      modifies this`sessions, this`leases, contexts
      ensures Valid()
      ensures View() == Sweep(old(View()), now, dead)
      ensures Lists(leases, leases.Keys, ids, listed) && InOrder(listed, (l: Lease) => l.createdAt)
      ensures forall i | 0 <= i < |listed| :: listed[i].expiresAt > now && listed[i].process !in dead
    {
      PruneLocked(now, dead);
      assert forall id | id in leases :: leases[id].expiresAt > now && leases[id].process !in dead;
      listed, ids := SortedByTime(leases, (l: Lease) => l.createdAt);
      forall i | 0 <= i < |listed| ensures listed[i].expiresAt > now && listed[i].process !in dead {
        assert ids[i] in leases;
      }
    }

    method Revoke(leaseId: Id) returns (error: Option<ErrorCode>)
      modifies this`leases
      ensures (View(), error) == RevokeSection(old(View()), leaseId)
    {
      if leaseId !in leases {
        assert leases - {leaseId} == leases;
        return Some(NotFound);
      }
      leases := leases - {leaseId};
      return None;
    }
  }
}

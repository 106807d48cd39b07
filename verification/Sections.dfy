/**
 What the critical sections of the broker mean, entry by entry and error by error, on any tables: the
 conditions are spelled out, so that the functions of BrokerTables are held to something beside themselves.
 */
module Sections {
  import opened Wrappers
  import opened Approval
  import P = Provider
  import opened BrokerTables

  // The sweep.

  /** A sweep cancels a request whose time is up, and one of a session whose process is gone, and no
      other. */
  lemma SweepCancels(t: Tables, at: Time, dead: set<Identity>, id: Id)
    ensures var u := Sweep(t, at, dead);
            && u.inflight == t.inflight
            && (id in u.ended <==>
                 || id in t.ended
                 || (id in t.inflight && t.inflight[id].expiresAt <= at)
                 || (id in t.inflight && t.inflight[id].process in dead
                     && SessionKey(t.inflight[id].process, t.inflight[id].sessionId) in t.sessions))
            && (id in u.ended ==> u.ended[id] == if id in t.ended then t.ended[id] else P.Canceled)
  {
  }

  /** It keeps exactly the sessions of living processes, and exactly their unexpired leases. */
  lemma SweepKeeps(t: Tables, at: Time, dead: set<Identity>, key: SessionKey, id: Id)
    ensures var u := Sweep(t, at, dead);
            && (key in u.sessions <==> key in t.sessions && key.process !in dead)
            && (key in u.sessions ==> u.sessions[key] == t.sessions[key])
            && (id in u.leases <==> id in t.leases && t.leases[id].expiresAt > at && t.leases[id].process !in dead)
            && (id in u.leases ==> u.leases[id] == t.leases[id])
  {
  }

  // Lifecycle events.

  /** The event closes whatever turn of its session is open: it ends the session, or it ends or starts a
      turn of a session that is there. */
  predicate Closing(t: Tables, dead: set<Identity>, process: Identity, event: LifecycleEvent) {
    || event.kind.SessionEnded?
    || ((event.kind.TurnEnded? || event.kind.TurnStarted?)
        && SessionKey(process, event.sessionId) in t.sessions && process !in dead)
  }

  /** What a valid event makes of its own session.  A new session starts without an open turn; a turn start
      opens the next turn if none is open, and otherwise closes the open one; every other session of a
      living process stays as it is. */
  lemma LifecycleSessions(t: Tables, at: Time, dead: set<Identity>, process: Identity, event: LifecycleEvent, other: SessionKey)
    requires event.Valid()
    ensures var (u, key) := (Lifecycle(t, at, dead, process, event).0.sessions, SessionKey(process, event.sessionId));
            var there := key in t.sessions && process !in dead;
            match event.kind
            case SessionStarted =>
              key in u && u[key] == if there then t.sessions[key].(updatedAt := at) else Session(process, event.sessionId, 0, false, at)
            case TurnStarted =>
              && (key in u <==> there)
              && (there && !t.sessions[key].active ==> u[key] == t.sessions[key].(turn := t.sessions[key].turn + 1, active := true, updatedAt := at))
              && (there && t.sessions[key].active ==> u[key] == t.sessions[key].(active := false, updatedAt := at))
            case TurnEnded =>
              (key in u <==> there) && (there ==> u[key] == t.sessions[key].(active := false, updatedAt := at))
            case SessionEnded => key !in u
            case UnknownKind(_) => true
    ensures var (u, key) := (Lifecycle(t, at, dead, process, event).0.sessions, SessionKey(process, event.sessionId));
            other != key ==> (other in u <==> other in t.sessions && other.process !in dead) && (other in u ==> u[other] == t.sessions[other])
  {
    hide Doomed, P.Cancel;
  }

  lemma CancelMembers(ended: P.Contexts, ids: set<Id>, id: Id)
    ensures id in P.Cancel(ended, ids) <==> id in ended || id in ids
  {
  }

  /** An event that closes the turn cancels every in-flight request of its session; apart from what its sweep
      cancels no event cancels any other. */
  lemma LifecycleCancels(t: Tables, at: Time, dead: set<Identity>, process: Identity, event: LifecycleEvent, id: Id)
    requires event.Valid()
    ensures var u := Lifecycle(t, at, dead, process, event).0;
            && u.inflight == t.inflight
            && (id in u.ended <==>
                 || id in Sweep(t, at, dead).ended
                 || (id in t.inflight && t.inflight[id].process == process && t.inflight[id].sessionId == event.sessionId
                     && Closing(t, dead, process, event)))
  {
    var swept := Sweep(t, at, dead);
    AdvanceCancels(swept, at, process, event, id);
    hide Advance, Doomed, P.Cancel;
  }

  lemma AdvanceCancels(t: Tables, at: Time, process: Identity, event: LifecycleEvent, id: Id)
    requires event.Valid()
    ensures var u := Advance(t, at, process, event).0;
            && u.inflight == t.inflight
            && (id in u.ended <==>
                 || id in t.ended
                 || (id in t.inflight && t.inflight[id].process == process && t.inflight[id].sessionId == event.sessionId
                     && Closing(t, {}, process, event)))
  {
    var key := SessionKey(process, event.sessionId);
    CancelMembers(t.ended, (set k | k in t.inflight && t.inflight[k].Key() == key), id);
    hide P.Cancel;
  }

  /** It takes the message leases of its session, and the session leases too if the session ends; apart from
      what its sweep takes no event takes any other. */
  lemma LifecycleTakes(t: Tables, at: Time, dead: set<Identity>, process: Identity, event: LifecycleEvent, id: Id)
    requires event.Valid()
    ensures var (u, swept) := (Lifecycle(t, at, dead, process, event).0, Sweep(t, at, dead));
            && (id in u.leases ==> id in t.leases && u.leases[id] == t.leases[id])
            && (id in u.leases <==>
                 && id in swept.leases
                 && !(t.leases[id].process == process && t.leases[id].sessionId == event.sessionId
                      && Closing(t, dead, process, event) && (event.kind.SessionEnded? || t.leases[id].scope == MessageScope)))
  {
    hide Doomed, P.Cancel;
  }

  /** Which events are refused, and how. */
  lemma LifecycleReports(t: Tables, at: Time, dead: set<Identity>, process: Identity, event: LifecycleEvent)
    ensures var (u, error) := Lifecycle(t, at, dead, process, event);
            var key := SessionKey(process, event.sessionId);
            var turnEvent := event.kind.TurnStarted? || event.kind.TurnEnded?;
            if |event.sessionId| == 0 || |event.sessionId| > 256 || event.kind.UnknownKind? then u == t && error == Some(InvalidLifecycle)
            else if turnEvent && (key !in t.sessions || process in dead) then error == Some(LifecycleOutOfOrder)
            else if event.kind.TurnStarted? && t.sessions[key].active then error == Some(LifecycleAmbiguous)
            else error == None
  {
    hide Doomed, P.Cancel, CancelPending, RevokeMessageLeases;
  }

  // Leases.

  /** A lease is added exactly if the decision is not for one command and no unexpired lease of the session
      covers it: one for the session, or for a message decision one for a message of the same turn. */
  lemma EnsureReports(t: Tables, cfg: Config, request: Request, decision: Decision, at: Time, drawn: Option<Id>)
    ensures var (u, error) := EnsureLease(t, cfg, request, decision, at, drawn);
            var covered := exists k | k in t.leases ::
              && t.leases[k].expiresAt > at && t.leases[k].process == request.process && t.leases[k].sessionId == request.sessionId
              && (t.leases[k].scope == SessionScope
                  || (decision.scope == MessageScope && t.leases[k].scope == MessageScope && t.leases[k].turn == Some(request.turn)));
            if decision.scope == CommandScope || covered then u == t && error == None
            else if drawn.None? then u == t && error == Some(InternalError)
            else
              && error == None
              && u == t.(leases := t.leases[drawn.value :=
                   Lease(drawn.value, decision.scope, request.process, request.sessionId,
                         if decision.scope == MessageScope then Some(request.turn) else None,
                         decision.provider, decision.principal, decision.approverUid, at,
                         at + if decision.scope == MessageScope then cfg.messageTTL else cfg.sessionTTL)])
  {
    if k :| k in t.leases && Subsumes(t.leases[k], request, decision, at) {
      assert t.leases[k].process == request.process;
    }
  }

  /** What a broad approval buys: for a while, the session's next requests need no review; after an approval
      for a message only those of the same turn. */
  lemma BroadApprovalLasts(t: Tables, cfg: Config, request: Request, decision: Decision, at: Time, id: Id) returns (until: Time)
    requires cfg.Valid() && decision.scope in {MessageScope, SessionScope}
    ensures until > at
    ensures var u := EnsureLease(t, cfg, request, decision, at, Some(id)).0;
            forall session: Session, later |
              && session.process == request.process && session.sessionId == request.sessionId
              && (decision.scope == MessageScope ==> session.turn == request.turn) && later < until ::
              SomeMatch(u, session, later)
  {
    until := EnsureLeaseIsIdempotent(t, cfg, request, decision, at, id);
    var u := EnsureLease(t, cfg, request, decision, at, Some(id)).0;
    var k :| k in u.leases && u.leases[k].expiresAt == until && Subsumes(u.leases[k], request, decision, at);
    hide EnsureLease, NeedsLease, NewLease;
    forall session: Session, later |
      && session.process == request.process && session.sessionId == request.sessionId
      && (decision.scope == MessageScope ==> session.turn == request.turn) && later < until
      ensures SomeMatch(u, session, later)
    {
      assert Matches(u.leases[k], session, later);
    }
  }

  // A request.

  /** The first critical section refuses a request exactly if its process has no session with an open turn,
      or more than one, or if no identifier can be drawn for a request that needs a review. */
  lemma BeginReports(t: Tables, u: Tables, cfg: Config, process: Identity, agentUid: nat, command: Command, disconnected: bool,
                     at: Time, drawn: Option<Id>, lease: Option<Id>, request: Option<Request>, error: Option<ErrorCode>)
    requires BeginSection(t, u, cfg, process, agentUid, command, disconnected, at, drawn, lease, request, error)
    ensures error == Some(NoActiveTurn) <==>
            !exists key | key in t.sessions :: t.sessions[key].process == process && t.sessions[key].active &&
              forall k | k in t.sessions && t.sessions[k].process == process && t.sessions[k].active :: k == key
    ensures error in {None, Some(NoActiveTurn), Some(InternalError)} && (error.Some? ==> u == t && lease.None? && request.None?)
    ensures error == Some(InternalError) ==> drawn.None?
    ensures error.None? ==> (lease.Some? <==> request.None?)
  {
    if key :| key in t.sessions && t.sessions[key].process == process && t.sessions[key].active &&
              forall k | k in t.sessions && t.sessions[k].process == process && t.sessions[k].active :: k == key {
      assert OnlyActive(t, process, key);
    }
    hide SomeMatch, Matches;
  }

  /** Otherwise it finds a lease of the one open turn, or if there is none makes a request in that turn,
      under a deadline, and puts it in flight with a context that is live if and only if its client is there. */
  lemma BeginMakes(t: Tables, u: Tables, cfg: Config, process: Identity, agentUid: nat, command: Command, disconnected: bool,
                   at: Time, drawn: Option<Id>, lease: Option<Id>, request: Option<Request>) returns (key: SessionKey)
    requires BeginSection(t, u, cfg, process, agentUid, command, disconnected, at, drawn, lease, request, None)
    ensures key in t.sessions && t.sessions[key].process == process && t.sessions[key].active
    ensures forall k | k in t.sessions && t.sessions[k].process == process && t.sessions[k].active :: k == key
    ensures var session := t.sessions[key];
            var gives := (l: Lease) =>
              && l.expiresAt > at && l.process == process && l.sessionId == session.sessionId
              && (l.scope == SessionScope || (l.scope == MessageScope && l.turn == Some(session.turn)));
            && (lease.Some? ==> u == t && lease.value in t.leases && gives(t.leases[lease.value]))
            && (request.Some? ==>
                 && (forall id | id in t.leases :: !gives(t.leases[id]))
                 && drawn == Some(request.value.id)
                 && request.value == Request(request.value.id, process, session.sessionId, session.turn, agentUid, command, at, at + cfg.requestTTL)
                 && u.sessions == t.sessions && u.leases == t.leases
                 && u.inflight == t.inflight[request.value.id := Inflight(process, session.sessionId, at + cfg.requestTTL)]
                 && forall id :: id in u.ended <==> id in t.ended || (disconnected && id == request.value.id))
  {
    key := ActiveSession(t, process).value;
    assert OnlyActive(t, process, key);
    if request.Some? {
      assert !SomeMatch(t, t.sessions[key], at);
    }
  }

  /** The last critical section takes the request out of flight and refuses an ill-formed decision, one that
      is not an approval, and an approval whose turn is not the open one, in this order. */
  lemma FinishReports(t: Tables, cfg: Config, request: Request, decision: Decision, at: Time, drawn: Option<Id>)
    ensures var (u, error) := FinishSection(t, cfg, request, decision, at, drawn);
            var key := SessionKey(request.process, request.sessionId);
            && u.sessions == t.sessions && u.ended == t.ended && u.inflight == t.inflight - {request.id}
            && (error.Some? ==> u.leases == t.leases)
            && if decision.outcome == Undecided || decision.outcome.UnknownOutcome?
                 || (decision.outcome == Denied && decision.scope != CommandScope)
                 || (decision.outcome == Approved && (decision.scope == NoScope || decision.scope.UnknownScope?
                                                      || decision.provider == "" || decision.principal == "")) then
                 error == Some(InvalidProviderDecision)
               else if decision.outcome != Approved then error == Some(RequestEnded(decision.outcome))
               else if !(key in t.sessions && t.sessions[key].active && t.sessions[key].turn == request.turn) then
                 error == Some(RequestEnded(Cancelled))
               else if error.Some? then error == Some(InternalError) && drawn.None? && decision.scope != CommandScope
               else decision.scope == CommandScope ==> u.leases == t.leases
  {
    hide NeedsLease, NewLease;
    if decision.scope == CommandScope {
      NoLeaseForCommands(t.(inflight := t.inflight - {request.id}), request, decision, at);
    }
  }

  lemma NoLeaseForCommands(t: Tables, request: Request, decision: Decision, at: Time)
    requires decision.scope == CommandScope
    ensures !NeedsLease(t, request, decision, at)
  {
  }

  /** A decision with a broad scope that lets a request through also covers the next ones of its turn. */
  lemma FinishCovers(t: Tables, cfg: Config, request: Request, decision: Decision, at: Time, id: Id)
    requires Keyed(t.sessions) && cfg.Valid() && decision.scope != CommandScope
    requires FinishSection(t, cfg, request, decision, at, Some(id)).1 == None
    ensures var (u, key) := (FinishSection(t, cfg, request, decision, at, Some(id)).0, SessionKey(request.process, request.sessionId));
            key in t.sessions && SomeMatch(u, t.sessions[key], at)
  {
    var u := t.(inflight := t.inflight - {request.id});
    assert decision.scope in {MessageScope, SessionScope};
    var until := BroadApprovalLasts(u, cfg, request, decision, at, id);
    hide EnsureLease, SomeMatch;
  }

  // An approver's side.

  /** A refused answer leaves the tables, a denial makes no lease, and an approval makes sure of one. */
  lemma AnswerReports(t: Tables, pending: P.Table, cfg: Config, target: Id, outcome: Outcome, scope: Scope, uid: nat, at: Time, drawn: Option<Id>)
    ensures var (u, after, error) := AnswerSection(t, pending, cfg, target, outcome, scope, uid, at, drawn);
            var (answered, answer) := P.Review(pending, t.ended, target, outcome, scope, uid);
            && after == answered
            && (answer.Failure? ==> u == t && error == Some(answer.error))
            && (answer.Success? && outcome == Denied ==> u == t && error == None)
            && (answer.Success? && outcome == Approved ==>
                 (u, error) == EnsureLease(t, cfg, answer.value.request, answer.value.decision, at, drawn))
  {
    hide P.Review, EnsureLease;
  }

  /** A listing first decides what has come to its end: no request whose time is up, or whose process is gone,
      is listed undecided. */
  lemma ListingDecides(t: Tables, pending: P.Table, at: Time, dead: set<Identity>, id: Id)
    requires id in pending && id in t.inflight
    requires t.inflight[id].expiresAt <= at
          || (t.inflight[id].process in dead && SessionKey(t.inflight[id].process, t.inflight[id].sessionId) in t.sessions)
    ensures var (u, after) := ListSection(t, pending, at, dead);
            id in after && after[id].decision.outcome != Undecided
  {
    SweepCancels(t, at, dead, id);
    P.SweepDecides(pending, Sweep(t, at, dead).ended, id);
    hide Sweep, P.Prune;
  }

  lemma RevokeReports(t: Tables, id: Id, other: Id)
    ensures var (u, error) := RevokeSection(t, id);
            && error == (if id in t.leases then None else Some(NotFound))
            && u == t.(leases := u.leases)
            && (other in u.leases <==> other in t.leases && other != id)
            && (other in u.leases ==> u.leases[other] == t.leases[other])
  {
  }
}

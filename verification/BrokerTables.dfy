/**
 What each critical section of the broker does to its three tables (internal/broker/broker.go),
 as functions on values.  Iteration over a table never matters here: the functions treat all
 entries at once, and the methods of class Broker are proved equal to them for every order.
 */
module BrokerTables {
  import opened Wrappers
  import opened Approval
  import opened Provider

  datatype Config = Config(requestTTL: Time, messageTTL: Time, sessionTTL: Time) {
    predicate Valid() {
      requestTTL > 0 && messageTTL > 0 && sessionTTL > 0
    }
  }

  /** The sessions are kept by process and session ID; SessionKeys proves that the text the code
      builds from the two identifies them. */
  datatype SessionKey = SessionKey(process: Identity, sessionId: string)

  datatype Session = Session(process: Identity, sessionId: string, turn: nat, active: bool, updatedAt: Time)
  {
    function Key(): SessionKey {
      SessionKey(process, sessionId)
    }
  }

  /** An in-flight request; its cancel function ends the context of the same request ID. */
  datatype Inflight = Inflight(process: Identity, sessionId: string, expiresAt: Time)
  {
    function Key(): SessionKey {
      SessionKey(process, sessionId)
    }
  }

  datatype Lease = Lease(
    id: Id, scope: Scope, process: Identity, sessionId: string, turn: Option<nat>,
    provider: string, principal: string, approverUid: nat, createdAt: Time, expiresAt: Time)
  {
    function Key(): SessionKey {
      SessionKey(process, sessionId)
    }
  }

  datatype Tables = Tables(
    sessions: map<SessionKey, Session>, inflight: map<Id, Inflight>, leases: map<Id, Lease>, ended: Contexts)

  datatype LifecycleKind = SessionStarted | TurnStarted | TurnEnded | SessionEnded | UnknownKind(text: string)

  datatype LifecycleEvent = LifecycleEvent(kind: LifecycleKind, sessionId: string) {
    predicate Valid() {
      1 <= |sessionId| <= 256 && !kind.UnknownKind?
    }
  }

  function RequestKey(request: Request): SessionKey {
    SessionKey(request.process, request.sessionId)
  }

  /** Sessions sit under their own key. */
  predicate Keyed(sessions: map<SessionKey, Session>) {
    forall key | key in sessions :: sessions[key].Key() == key
  }

  function CancelPending(t: Tables, key: SessionKey): Tables {
    t.(ended := Cancel(t.ended, set id | id in t.inflight && t.inflight[id].Key() == key))
  }

  function RevokeMessageLeases(t: Tables, key: SessionKey): Tables {
    t.(leases := map id | id in t.leases && !(t.leases[id].scope == MessageScope && t.leases[id].Key() == key) :: t.leases[id])
  }

  function RemoveSession(t: Tables, key: SessionKey): Tables {
    CancelPending(
      t.(sessions := t.sessions - {key},
         leases := map id | id in t.leases && t.leases[id].Key() != key :: t.leases[id]),
      key)
  }

  /** In-flight requests that a sweep cancels: those of a session whose process is gone, and those
      whose time is up. */
  function Doomed(t: Tables, at: Time, dead: set<Identity>): set<Id> {
    set id | id in t.inflight &&
      ((t.inflight[id].Key() in t.sessions && t.inflight[id].process in dead) || t.inflight[id].expiresAt <= at)
  }

  /** The sweep at the start of almost every critical section. */
  function Sweep(t: Tables, at: Time, dead: set<Identity>): Tables {
    Tables(
      map key | key in t.sessions && key.process !in dead :: t.sessions[key],
      t.inflight,
      map id | id in t.leases && t.leases[id].expiresAt > at && t.leases[id].process !in dead :: t.leases[id],
      Cancel(t.ended, Doomed(t, at, dead)))
  }

  /** What a valid lifecycle event does to swept tables: the new tables, and an error if the event
      was out of order. */
  function Advance(t: Tables, at: Time, process: Identity, event: LifecycleEvent): (Tables, Option<ErrorCode>) {
    var key := SessionKey(process, event.sessionId);
    match event.kind
    case SessionStarted =>
      var session := if key in t.sessions then t.sessions[key].(updatedAt := at)
                     else Session(process, event.sessionId, 0, false, at);
      (t.(sessions := t.sessions[key := session]), None)
    case TurnStarted =>
      if key !in t.sessions then (t, Some(LifecycleOutOfOrder))
      else if t.sessions[key].active then (CloseTurn(t, key, at), Some(LifecycleAmbiguous))
      else (OpenTurn(t, key, at), None)
    case TurnEnded =>
      if key !in t.sessions then (t, Some(LifecycleOutOfOrder)) else (CloseTurn(t, key, at), None)
    case SessionEnded => (RemoveSession(t, key), None)
    case UnknownKind(_) => (t, None)
  }

  function CloseTurn(t: Tables, key: SessionKey, at: Time): Tables
    requires key in t.sessions
  {
    var session := t.sessions[key].(active := false, updatedAt := at);
    CancelPending(RevokeMessageLeases(t.(sessions := t.sessions[key := session]), key), key)
  }

  function OpenTurn(t: Tables, key: SessionKey, at: Time): Tables
    requires key in t.sessions
  {
    var session := t.sessions[key].(turn := t.sessions[key].turn + 1, active := true, updatedAt := at);
    RevokeMessageLeases(CancelPending(t, key).(sessions := t.sessions[key := session]), key)
  }

  function Lifecycle(t: Tables, at: Time, dead: set<Identity>, process: Identity, event: LifecycleEvent)
    : (Tables, Option<ErrorCode>)
  {
    if event.Valid() then Advance(Sweep(t, at, dead), at, process, event) else (t, Some(InvalidLifecycle))
  }

  /** `key` names the one session of the process with an open turn. */
  ghost predicate OnlyActive(t: Tables, process: Identity, key: SessionKey) {
    && key in t.sessions && t.sessions[key].process == process && t.sessions[key].active
    && forall k | k in t.sessions && t.sessions[k].process == process && t.sessions[k].active :: k == key
  }

  ghost function ActiveSession(t: Tables, process: Identity): (found: Option<SessionKey>)
    ensures found.Some? ==> OnlyActive(t, process, found.value)
    ensures found.None? ==> forall key :: !OnlyActive(t, process, key)
  {
    if key :| OnlyActive(t, process, key) then Some(key) else None
  }

  /** A lease that lets a command of this session run without a review. */
  predicate Matches(lease: Lease, session: Session, at: Time) {
    && lease.expiresAt > at && lease.Key() == session.Key()
    && (lease.scope == SessionScope || (lease.scope == MessageScope && lease.turn == Some(session.turn)))
  }

  predicate SomeMatch(t: Tables, session: Session, at: Time) {
    exists id | id in t.leases :: Matches(t.leases[id], session, at)
  }

  predicate ContextActive(sessions: map<SessionKey, Session>, request: Request) {
    var key := RequestKey(request);
    key in sessions && sessions[key].active && sessions[key].turn == request.turn
  }

  /** A lease that already gives what the decision would give. */
  predicate Subsumes(lease: Lease, request: Request, decision: Decision, at: Time) {
    && lease.expiresAt > at && lease.Key() == RequestKey(request)
    && (lease.scope == SessionScope ||
        (decision.scope == MessageScope && lease.scope == MessageScope && lease.turn == Some(request.turn)))
  }

  predicate NeedsLease(t: Tables, request: Request, decision: Decision, at: Time) {
    && decision.scope != CommandScope
    && forall id | id in t.leases :: !Subsumes(t.leases[id], request, decision, at)
  }

  function NewLease(cfg: Config, request: Request, decision: Decision, at: Time, id: Id): Lease {
    var message := decision.scope == MessageScope;
    Lease(id, decision.scope, request.process, request.sessionId, if message then Some(request.turn) else None,
          decision.provider, decision.principal, decision.approverUid,
          at, at + if message then cfg.messageTTL else cfg.sessionTTL)
  }

  /** `id` is what the random source returned, `None` when it failed. */
  function EnsureLease(t: Tables, cfg: Config, request: Request, decision: Decision, at: Time, id: Option<Id>)
    : (Tables, Option<ErrorCode>)
  {
    if !NeedsLease(t, request, decision, at) then (t, None)
    else if id.None? then (t, Some(InternalError))
    else (t.(leases := t.leases[id.value := NewLease(cfg, request, decision, at, id.value)]), None)
  }

  // Whole critical sections.

  function RequestFor(session: Session, cfg: Config, id: Id, agentUid: nat, command: Command, at: Time): Request {
    Request(id, session.process, session.sessionId, session.turn, agentUid, command, at, at + cfg.requestTTL)
  }

  /** First critical section of `Request`, on swept tables: an error, some matching lease, or a new
      request in flight under a context that is live unless its client is already gone. */
  ghost predicate BeginSection(t: Tables, u: Tables, cfg: Config, process: Identity, agentUid: nat, command: Command,
                               disconnected: bool, at: Time, drawn: Option<Id>,
                               lease: Option<Id>, request: Option<Request>, error: Option<ErrorCode>)
  {
    var found := ActiveSession(t, process);
    if found.None? then u == t && lease.None? && request.None? && error == Some(NoActiveTurn)
    else
      var session := t.sessions[found.value];
      if SomeMatch(t, session, at) then
        && u == t && request.None? && error.None?
        && lease.Some? && lease.value in t.leases && Matches(t.leases[lease.value], session, at)
      else if drawn.None? then u == t && lease.None? && request.None? && error == Some(InternalError)
      else
        var r := RequestFor(session, cfg, drawn.value, agentUid, command, at);
        && lease.None? && request == Some(r) && error.None?
        && u == t.(inflight := t.inflight[r.id := Inflight(process, r.sessionId, r.expiresAt)],
                   ended := if disconnected then Cancel(t.ended, {r.id}) else t.ended)
  }

  /** Last critical section of `Request`: whether the decision lets the command run. */
  function FinishSection(t: Tables, cfg: Config, request: Request, decision: Decision, at: Time, drawn: Option<Id>)
    : (Tables, Option<ErrorCode>)
  {
    var u := t.(inflight := t.inflight - {request.id});
    if !decision.Valid() then (u, Some(InvalidProviderDecision))
    else if decision.outcome != Approved then (u, Some(RequestEnded(decision.outcome)))
    else if !ContextActive(u.sessions, request) then (u, Some(RequestEnded(Cancelled)))
    else EnsureLease(u, cfg, request, decision, at, drawn)
  }

  /** `Decide` on swept tables: the provider's answer, and a lease for an approval. */
  function AnswerSection(t: Tables, pending: Table, cfg: Config, target: Id, outcome: Outcome, scope: Scope,
                         uid: nat, at: Time, drawn: Option<Id>): (Tables, Table, Option<ErrorCode>)
  {
    var (after, answer) := Review(pending, t.ended, target, outcome, scope, uid);
    if answer.Failure? then (t, after, Some(answer.error))
    else if outcome != Approved then (t, after, None)
    else
      var (u, error) := EnsureLease(t, cfg, answer.value.request, answer.value.decision, at, drawn);
      (u, after, error)
  }

  /** `Pending` at the broker and, with its lock still held, at the provider. */
  function ListSection(t: Tables, pending: Table, at: Time, dead: set<Identity>): (Tables, Table) {
    var u := Sweep(t, at, dead);
    (u, Prune(pending, u.ended))
  }

  function RevokeSection(t: Tables, id: Id): (Tables, Option<ErrorCode>) {
    (t.(leases := t.leases - {id}), if id in t.leases then None else Some(NotFound))
  }

  /** What positive lifetimes buy: after a call, some lease covers the decision for a while, a new one
      for its whole lifetime; until then a repeated call adds nothing, whatever identifier it drew. */
  lemma EnsureLeaseIsIdempotent(t: Tables, cfg: Config, request: Request, decision: Decision, at: Time, id: Id) returns (until: Time)
    requires cfg.Valid() && decision.scope in {MessageScope, SessionScope}
    ensures until > at
    ensures var covered := EnsureLease(t, cfg, request, decision, at, Some(id)).0;
            exists k | k in covered.leases :: covered.leases[k].expiresAt == until && Subsumes(covered.leases[k], request, decision, at)
    ensures NeedsLease(t, request, decision, at) ==>
              until == at + if decision.scope == MessageScope then cfg.messageTTL else cfg.sessionTTL
    ensures var covered := EnsureLease(t, cfg, request, decision, at, Some(id)).0;
            forall later, other | at <= later < until :: EnsureLease(covered, cfg, request, decision, later, other) == (covered, None)
  {
    var covered := EnsureLease(t, cfg, request, decision, at, Some(id)).0;
    if NeedsLease(t, request, decision, at) {
      until := NewLease(cfg, request, decision, at, id).expiresAt;
      forall later | at <= later < until ensures !NeedsLease(covered, request, decision, later) {
        assert Subsumes(covered.leases[id], request, decision, later);
      }
    } else {
      var k :| k in t.leases && Subsumes(t.leases[k], request, decision, at);
      until := t.leases[k].expiresAt;
      forall later | at <= later < until ensures !NeedsLease(covered, request, decision, later) {
        assert Subsumes(covered.leases[k], request, decision, later);
      }
    }
  }

  /** Waiting with a sweep changes nothing: sweeping twice leaves the same sessions, leases and
      cancelled requests as sweeping once, at the later time with the later deaths. */
  lemma LazySweepEqualsEager(t: Tables, at: Time, dead: set<Identity>, later: Time, deadLater: set<Identity>)
    requires at <= later && dead <= deadLater
    ensures Sweep(Sweep(t, at, dead), later, deadLater) == Sweep(t, later, deadLater)
  {
    var once := Sweep(t, at, dead);
    assert Doomed(t, at, dead) + Doomed(once, later, deadLater) == Doomed(t, later, deadLater) by {
      DoomedAccumulates(t, at, dead, later, deadLater);
    }
    CancelTwice(t.ended, Doomed(t, at, dead), Doomed(once, later, deadLater));
  }

  lemma DoomedAccumulates(t: Tables, at: Time, dead: set<Identity>, later: Time, deadLater: set<Identity>)
    requires at <= later && dead <= deadLater
    ensures Doomed(t, at, dead) + Doomed(Sweep(t, at, dead), later, deadLater) == Doomed(t, later, deadLater)
  {
    var once := Sweep(t, at, dead);
    forall id
      ensures id in Doomed(t, at, dead) || id in Doomed(once, later, deadLater) <==> id in Doomed(t, later, deadLater)
    {
      if id in t.inflight {
        var key := t.inflight[id].Key();
        assert key in once.sessions <==> key in t.sessions && key.process !in dead;
      }
    }
  }

  lemma CancelTwice(ended: Contexts, a: set<Id>, b: set<Id>)
    ensures Cancel(Cancel(ended, a), b) == Cancel(ended, a + b)
  {
  }
}

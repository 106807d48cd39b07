/**
 The broker and its manual provider as one transition system.

 One step is one critical section, or one move of the environment.  A request takes the broker's
 lock, lets it go, waits inside the provider, takes the lock again and runs its command outside it;
 its thread remembers where it is.  `Decide` and `Pending` hold the broker's lock while they wait
 for the provider's, so each is two steps with the lock held in between.

 A critical section that reads the clock before it takes the lock may work with a time that is
 already past; such a step carries the time it read.
 */
module Machine {
  import opened Wrappers
  import opened Approval
  import P = Provider
  import opened BrokerTables

  type ThreadId = nat

  /** Where a request thread is. */
  datatype Pc =
    | Called                                            // about to enter its first critical section
    | Submitting(request: Request)                      // in flight, about to queue at the provider
    | Waiting(request: Request)                         // queued, in the select statement
    | Awake(request: Request)                           // out of the select statement
    | Returned(request: Request, decision: Decision)    // the provider has answered
    | Resuming(request: Request, decision: Decision)    // context released, about to enter the last section
    | Admitted                                          // past its last critical section
    | Executed
    | Failed(code: ErrorCode)

  datatype Thread = Thread(process: Identity, agentUid: nat, command: Command, disconnected: bool, pc: Pc)

  /** A request that was created, and the thread that created it. */
  datatype Origin = Origin(request: Request, tid: ThreadId)

  /** Who holds the broker's lock between two steps. */
  datatype Lock =
    | Free
    | Deciding(at: Time, target: Id, outcome: Outcome, scope: Scope, approverUid: nat)
    | Listing

  datatype Event =
    | Swept(at: Time, dead: set<Identity>)
    | TurnMoved(key: SessionKey)
    | SessionGone(key: SessionKey)
    | LeaseCreated(lease: Lease)
    | LeaseRevoked(id: Id)
    | Reviewed(target: Request, decision: Decision)
    | AdmittedByDecision(tid: ThreadId, request: Request, decision: Decision, session: Session)
    | AdmittedByLease(tid: ThreadId, session: Session, lease: Lease, at: Time)
    | Execution(tid: ThreadId, command: Command)

  datatype World = World(
    cfg: Config,
    clock: Time,
    dead: set<Identity>,
    issued: set<Id>,                // identifiers the random source has handed out
    requests: map<Id, Origin>,      // every request ever created
    tables: Tables,
    pending: P.Table,
    threads: map<ThreadId, Thread>,
    lock: Lock,
    history: seq<Event>)

  datatype Step =
    // the environment
    | Tick(to: Time)
    | Die(process: Identity)
    | Call(tid: ThreadId, process: Identity, agentUid: nat, command: Command)
    | Disconnect(tid: ThreadId)
    | DeadlineFires(id: Id)
    // critical sections of the broker
    | HandleLifecycle(at: Time, process: Identity, event: LifecycleEvent)
    | BeginRequest(tid: ThreadId, at: Time, lease: Option<Id>, requestId: Option<Id>)
    | FinishRequest(tid: ThreadId, leaseId: Option<Id>)
    | OpenDecide(at: Time, target: Id, outcome: Outcome, scope: Scope, approverUid: nat)
    | CloseDecide(leaseId: Option<Id>)
    | OpenPending
    | ClosePending
    | ListLeases
    | Revoke(id: Id)
    // critical sections of the provider
    | Register(tid: ThreadId)
    | WakeDecided(tid: ThreadId)
    | WakeEnded(tid: ThreadId)
    | Collect(tid: ThreadId)
    // outside both locks
    | ReleaseContext(tid: ThreadId)
    | Launch(tid: ThreadId)

  predicate NewId(w: World, id: Option<Id>) {
    id.Some? ==> id.value !in w.issued
  }

  function Issue(w: World, id: Option<Id>): World {
    if id.Some? then w.(issued := w.issued + {id.value}) else w
  }

  function Goto(w: World, tid: ThreadId, pc: Pc): World
    requires tid in w.threads
  {
    w.(threads := w.threads[tid := w.threads[tid].(pc := pc)])
  }

  function Log(w: World, events: seq<Event>): World {
    w.(history := w.history + events)
  }

  function CancelOne(w: World, id: Id): World {
    w.(tables := w.tables.(ended := P.Cancel(w.tables.ended, {id})))
  }

  function SweepAt(w: World, at: Time): World {
    Log(w, [Swept(at, w.dead)]).(tables := Sweep(w.tables, at, w.dead))
  }

  /** The context a thread's provider call runs under, if it has one. */
  function ContextOf(pc: Pc): set<Id> {
    match pc
    case Submitting(r) => {r.id}
    case Waiting(r) => {r.id}
    case Awake(r) => {r.id}
    case Returned(r, _) => {r.id}
    case Resuming(r, _) => {r.id}
    case _ => {}
  }

  /** The lease found by the first critical section, if any, is one that matches; and it looks for
      no identifier that was handed out before. */
  ghost predicate BeginAllowed(w: World, tid: ThreadId, at: Time, lease: Option<Id>, id: Option<Id>) {
    && tid in w.threads && w.threads[tid].pc.Called? && NewId(w, id)
    && var found := ActiveSession(w.tables, w.threads[tid].process);
       found.Some? ==>
         var session := w.tables.sessions[found.value];
         if lease.Some? then lease.value in w.tables.leases && Matches(w.tables.leases[lease.value], session, at)
         else !SomeMatch(w.tables, session, at)
  }

  ghost predicate Enabled(w: World, s: Step) {
    match s
    case Tick(to) => w.clock <= to
    case Die(_) => true
    case Call(tid, _, _, _) => tid !in w.threads
    case Disconnect(tid) => tid in w.threads
    case DeadlineFires(id) => id in w.requests && w.requests[id].request.expiresAt <= w.clock
    case HandleLifecycle(at, _, _) => w.lock.Free? && at <= w.clock
    case BeginRequest(tid, at, lease, id) => w.lock.Free? && at <= w.clock && BeginAllowed(SweepAt(w, at), tid, at, lease, id)
    case FinishRequest(tid, leaseId) =>
      w.lock.Free? && tid in w.threads && w.threads[tid].pc.Resuming? && NewId(w, leaseId)
    case OpenDecide(at, _, _, _, _) => w.lock.Free? && at <= w.clock
    case CloseDecide(leaseId) => w.lock.Deciding? && NewId(w, leaseId)
    case OpenPending => w.lock.Free?
    case ClosePending => w.lock.Listing?
    case ListLeases => w.lock.Free?
    case Revoke(_) => w.lock.Free?
    case Register(tid) => tid in w.threads && w.threads[tid].pc.Submitting?
    case WakeDecided(tid) =>
      && tid in w.threads && w.threads[tid].pc.Waiting?
      && var id := w.threads[tid].pc.request.id; id in w.pending && w.pending[id].done
    case WakeEnded(tid) =>
      && tid in w.threads && w.threads[tid].pc.Waiting?
      && var id := w.threads[tid].pc.request.id; id in w.pending && id in w.tables.ended
    case Collect(tid) =>
      && tid in w.threads && w.threads[tid].pc.Awake?
      && w.threads[tid].pc.request.id in w.pending
    case ReleaseContext(tid) => tid in w.threads && w.threads[tid].pc.Returned?
    case Launch(tid) => tid in w.threads && w.threads[tid].pc.Admitted?
  }

  function NewRequest(w: World, thread: Thread, session: Session, at: Time, id: Id): Request {
    RequestFor(session, w.cfg, id, thread.agentUid, thread.command, at)
  }

  /** First critical section of `Request`, after its sweep. */
  ghost function Begin(w: World, tid: ThreadId, at: Time, lease: Option<Id>, id: Option<Id>): World
    requires BeginAllowed(w, tid, at, lease, id)
  {
    var thread := w.threads[tid];
    var found := ActiveSession(w.tables, thread.process);
    if found.None? then Goto(w, tid, Failed(NoActiveTurn))
    else
      var session := w.tables.sessions[found.value];
      if lease.Some? then
        Log(Goto(w, tid, Admitted), [AdmittedByLease(tid, session, w.tables.leases[lease.value], at)])
      else if id.None? then Goto(w, tid, Failed(InternalError))
      else Submit(w, tid, NewRequest(w, thread, session, at, id.value))
  }

  /** A request without a lease enters the in-flight table, under a context derived from its client's. */
  function Submit(w: World, tid: ThreadId, request: Request): World
    requires tid in w.threads
  {
    var entry := Inflight(request.process, request.sessionId, request.expiresAt);
    var v := Goto(w, tid, Submitting(request)).(
      issued := w.issued + {request.id},
      requests := w.requests[request.id := Origin(request, tid)],
      tables := w.tables.(inflight := w.tables.inflight[request.id := entry]));
    if w.threads[tid].disconnected then CancelOne(v, request.id) else v
  }

  /** Makes sure of a lease and records it if it is new. */
  function Ensure(w: World, request: Request, decision: Decision, at: Time, leaseId: Option<Id>): (World, Option<ErrorCode>) {
    var (t, error) := EnsureLease(w.tables, w.cfg, request, decision, at, leaseId);
    if NeedsLease(w.tables, request, decision, at) && leaseId.Some? then
      (Log(Issue(w, leaseId), [LeaseCreated(NewLease(w.cfg, request, decision, at, leaseId.value))]).(tables := t), error)
    else (w, error)
  }

  /** Last critical section of `Request`. */
  function Finish(w: World, tid: ThreadId, leaseId: Option<Id>): World
    requires tid in w.threads && w.threads[tid].pc.Resuming?
  {
    var (request, decision) := (w.threads[tid].pc.request, w.threads[tid].pc.decision);
    var v := w.(tables := w.tables.(inflight := w.tables.inflight - {request.id}));
    if !decision.Valid() then Goto(v, tid, Failed(InvalidProviderDecision))
    else if decision.outcome != Approved then Goto(v, tid, Failed(RequestEnded(decision.outcome)))
    else if !ContextActive(v.tables.sessions, request) then Goto(v, tid, Failed(RequestEnded(Cancelled)))
    else Admit(v, tid, request, decision, leaseId)
  }

  function Admit(w: World, tid: ThreadId, request: Request, decision: Decision, leaseId: Option<Id>): World
    requires tid in w.threads && RequestKey(request) in w.tables.sessions
  {
    var (u, error) := Ensure(w, request, decision, w.clock, leaseId);
    if error.Some? then Goto(u, tid, Failed(error.value))
    else Log(Goto(u, tid, Admitted), [AdmittedByDecision(tid, request, decision, w.tables.sessions[RequestKey(request)])])
  }

  /** `Decide` from the provider's answer on. */
  function Close(w: World, leaseId: Option<Id>): World
    requires w.lock.Deciding?
  {
    var Deciding(at, target, outcome, scope, uid) := w.lock;
    var (pending, answer) := P.Review(w.pending, w.tables.ended, target, outcome, scope, uid);
    var v := w.(pending := pending, lock := Free);
    if answer.Failure? then v
    else
      var (request, decision) := (answer.value.request, answer.value.decision);
      var u := Log(v, [Reviewed(request, decision)]);
      if !decision.Valid() || decision.outcome != outcome || decision.scope != P.EffectiveScope(outcome, scope) then u
      else if outcome == Approved then Ensure(u, request, decision, at, leaseId).0
      else u
  }

  /** What a lifecycle event ends, for the record. */
  function Ending(t: Tables, key: SessionKey, kind: LifecycleKind): Option<Event> {
    match kind
    case TurnStarted => if key in t.sessions then Some(TurnMoved(key)) else None
    case TurnEnded => if key in t.sessions then Some(TurnMoved(key)) else None
    case SessionEnded => Some(SessionGone(key))
    case _ => None
  }

  /** A valid lifecycle event, after its sweep. */
  function AdvanceWorld(w: World, at: Time, process: Identity, event: LifecycleEvent): World {
    var ending := Ending(w.tables, SessionKey(process, event.sessionId), event.kind);
    Log(w, if ending.Some? then [ending.value] else []).(tables := Advance(w.tables, at, process, event).0)
  }

  function RevokeLease(w: World, id: Id): World {
    if id in w.tables.leases then
      Log(w, [LeaseRevoked(id)]).(tables := w.tables.(leases := w.tables.leases - {id}))
    else w
  }

  function Enqueue(w: World, tid: ThreadId): World
    requires tid in w.threads && w.threads[tid].pc.Submitting?
  {
    var request := w.threads[tid].pc.request;
    var (pending, queued) := P.Enqueued(w.pending, request);
    Goto(w, tid, if queued then Waiting(request) else Returned(request, UNSET.(outcome := Cancelled))).(pending := pending)
  }

  function Start(w: World, tid: ThreadId): World
    requires tid in w.threads
  {
    if w.threads[tid].disconnected || w.threads[tid].process in w.dead then Goto(w, tid, Failed(RequestEnded(Cancelled)))
    else Log(Goto(w, tid, Executed), [Execution(tid, w.threads[tid].command)])
  }

  ghost function Apply(w: World, s: Step): World
    requires Enabled(w, s)
  {
    match s
    case Tick(to) => w.(clock := to)
    case Die(process) => w.(dead := w.dead + {process})
    case Call(tid, process, agentUid, command) =>
      w.(threads := w.threads[tid := Thread(process, agentUid, command, false, Called)])
    case Disconnect(tid) =>
      var thread := w.threads[tid];
      w.(threads := w.threads[tid := thread.(disconnected := true)],
         tables := w.tables.(ended := P.Cancel(w.tables.ended, ContextOf(thread.pc))))
    case DeadlineFires(id) =>
      if id in w.tables.ended then w
      else w.(tables := w.tables.(ended := w.tables.ended[id := P.DeadlineExceeded]))
    case HandleLifecycle(at, process, event) =>
      if event.Valid() then AdvanceWorld(SweepAt(w, at), at, process, event) else w
    case BeginRequest(tid, at, lease, id) => Begin(SweepAt(w, at), tid, at, lease, id)
    case FinishRequest(tid, leaseId) => Finish(w, tid, leaseId)
    case OpenDecide(at, target, outcome, scope, uid) =>
      SweepAt(w, at).(lock := Deciding(at, target, outcome, scope, uid))
    case CloseDecide(leaseId) => Close(w, leaseId)
    case OpenPending => SweepAt(w, w.clock).(lock := Listing)
    case ClosePending => w.(pending := P.Prune(w.pending, w.tables.ended), lock := Free)
    case ListLeases => SweepAt(w, w.clock)
    case Revoke(id) => RevokeLease(w, id)
    case Register(tid) => Enqueue(w, tid)
    case WakeDecided(tid) => Goto(w, tid, Awake(w.threads[tid].pc.request))
    case WakeEnded(tid) =>
      var request := w.threads[tid].pc.request;
      Goto(w, tid, Awake(request)).(pending := P.Settled(w.pending, w.tables.ended, request.id))
    case Collect(tid) =>
      var request := w.threads[tid].pc.request;
      var (pending, decision) := P.Collected(w.pending, request.id);
      Goto(w, tid, Returned(request, decision)).(pending := pending)
    case ReleaseContext(tid) =>
      var Returned(request, decision) := w.threads[tid].pc;
      Goto(CancelOne(w, request.id), tid, Resuming(request, decision))
    case Launch(tid) => Start(w, tid)
  }

  /** A daemon that has just started. */
  predicate Initial(w: World) {
    && w.cfg.Valid()
    && w.issued == {} && w.requests == map[] && w.tables == Tables(map[], map[], map[], map[])
    && w.pending == map[] && w.threads == map[] && w.lock.Free? && w.history == []
  }

  /** `run` is a run of the system, state by state, that takes the given steps. */
  ghost predicate IsRun(run: seq<World>, steps: seq<Step>) {
    && |run| == |steps| + 1 && Initial(run[0])
    && forall i | 0 <= i < |steps| :: Enabled(run[i], steps[i]) && run[i + 1] == Apply(run[i], steps[i])
  }
}

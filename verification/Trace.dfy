/**
 Where executions come from: in every run, each execution follows an admission of the same request
 thread, and each admission follows an approving review by a human.
 */
module Trace {
  import opened Wrappers
  import opened Approval
  import P = Provider
  import opened BrokerTables
  import opened Machine
  import opened Shape
  import opened Safety
  import opened Ledger

  /** The event is a review whose approval speaks for this request. */
  predicate Speaks(e: Event, request: Request, decision: Decision) {
    e.Reviewed? && e.decision == decision && decision.outcome == Approved && Covers(decision.scope, e.target, request)
  }

  /** One of the first `n` events approved this request with this decision. */
  ghost predicate Backed(h: seq<Event>, n: nat, request: Request, decision: Decision)
    requires n <= |h|
  {
    exists k | 0 <= k < n :: Speaks(h[k], request, decision)
  }

  /** The event is a review that approved what the lease gives: same process, session and scope, and
      for a message lease the same turn. */
  predicate Grants(e: Event, lease: Lease) {
    && e.Reviewed? && e.decision.outcome == Approved && e.decision.scope == lease.scope
    && e.decision.approverUid == lease.approverUid && RequestKey(e.target) == lease.Key()
    && (lease.scope == MessageScope ==> lease.turn == Some(e.target.turn))
  }

  ghost predicate LeaseBacked(h: seq<Event>, n: nat, lease: Lease)
    requires n <= |h|
  {
    lease.scope in {MessageScope, SessionScope} && exists k | 0 <= k < n :: Grants(h[k], lease)
  }

  /** The thread whose last critical section this event records. */
  function AdmittedThread(e: Event): Option<ThreadId> {
    match e
    case AdmittedByDecision(tid, _, _, _) => Some(tid)
    case AdmittedByLease(tid, _, _, _) => Some(tid)
    case _ => None
  }

  ghost predicate AdmittedBefore(h: seq<Event>, n: nat, tid: ThreadId)
    requires n <= |h|
  {
    exists k | 0 <= k < n :: AdmittedThread(h[k]) == Some(tid)
  }

  predicate ExecutionOf(e: Event, tid: ThreadId) {
    e.Execution? && e.tid == tid
  }

  /** What justifies an admission, a lease or an execution, at the moment it happened. */
  ghost predicate Justified(h: seq<Event>, requests: map<Id, Origin>, i: nat)
    requires i < |h|
  {
    match h[i]
    case AdmittedByDecision(tid, r, d, session) =>
      && d.Valid() && d.outcome == Approved && Backed(h, i, r, d)
      && session.active && session.turn == r.turn && session.Key() == RequestKey(r)
      && r.id in requests && requests[r.id] == Origin(r, tid)
      && !AdmittedBefore(h, i, tid)
    case AdmittedByLease(tid, session, lease, at) =>
      && session.active && Matches(lease, session, at) && Stands(h[..i], lease)
      && !AdmittedBefore(h, i, tid)
    case LeaseCreated(lease) => LeaseBacked(h, i, lease)
    case Execution(tid, _) =>
      AdmittedBefore(h, i, tid) && forall j | 0 <= j < i :: !ExecutionOf(h[j], tid)
    case _ => true
  }

  /** The request was made, just so, by some thread. */
  predicate Known(w: World, r: Request) {
    r.id in w.requests && w.requests[r.id].request == r
  }

  /** How far the thread of an event must have come, and what the event says about it. */
  ghost predicate Recorded(w: World, i: nat)
    requires i < |w.history|
  {
    var e := w.history[i];
    && (AdmittedThread(e).Some? ==>
          var tid := AdmittedThread(e).value;
          tid in w.threads && (w.threads[tid].pc.Admitted? || w.threads[tid].pc.Executed? || w.threads[tid].pc.Failed?))
    && (e.AdmittedByLease? ==> e.tid in w.threads && e.session.process == w.threads[e.tid].process)
    && (e.Execution? ==> e.tid in w.threads && w.threads[e.tid].pc.Executed? && e.command == w.threads[e.tid].command)
    && (e.Reviewed? ==> Known(w, e.target))
  }

  ghost predicate ItemTraced(w: World, id: Id)
    requires id in w.pending
  {
    var item := w.pending[id];
    item.decision.outcome == Approved ==> Backed(w.history, |w.history|, item.request, item.decision)
  }

  ghost predicate ThreadTraced(w: World, tid: ThreadId)
    requires tid in w.threads
  {
    var pc := w.threads[tid].pc;
    && ((pc.Returned? || pc.Resuming?) && pc.decision.outcome == Approved ==>
          Backed(w.history, |w.history|, pc.request, pc.decision))
    && (pc.Admitted? ==> AdmittedBefore(w.history, |w.history|, tid))
  }

  ghost predicate Traced(w: World) {
    && (forall i | 0 <= i < |w.history| :: Justified(w.history, w.requests, i) && Recorded(w, i))
    && (forall id | id in w.pending :: ItemTraced(w, id))
    && (forall tid | tid in w.threads :: ThreadTraced(w, tid))
    && (forall id | id in w.tables.leases :: LeaseBacked(w.history, |w.history|, w.tables.leases[id]))
  }

  /** `v` has seen what `w` has seen, and perhaps more. */
  ghost predicate Later(w: World, v: World) {
    && w.history <= v.history
    && forall id | id in w.requests :: id in v.requests && v.requests[id] == w.requests[id]
  }

  lemma BackedLater(h: seq<Event>, g: seq<Event>, n: nat, m: nat, request: Request, decision: Decision)
    requires h <= g && n <= |h| && n <= m <= |g| && Backed(h, n, request, decision)
    ensures Backed(g, m, request, decision)
  {
    var k :| 0 <= k < n && Speaks(h[k], request, decision);
    assert Speaks(g[k], request, decision);
  }

  lemma LeaseBackedLater(h: seq<Event>, g: seq<Event>, n: nat, m: nat, lease: Lease)
    requires h <= g && n <= |h| && n <= m <= |g| && LeaseBacked(h, n, lease)
    ensures LeaseBacked(g, m, lease)
  {
    var k :| 0 <= k < n && Grants(h[k], lease);
    assert Grants(g[k], lease);
  }

  lemma AdmittedBeforeLater(h: seq<Event>, g: seq<Event>, n: nat, m: nat, tid: ThreadId)
    requires h <= g && n <= |h| && n <= m <= |g| && AdmittedBefore(h, n, tid)
    ensures AdmittedBefore(g, m, tid)
  {
    var k :| 0 <= k < n && AdmittedThread(h[k]) == Some(tid);
    assert AdmittedThread(g[k]) == Some(tid);
  }

  lemma JustifiedLater(w: World, v: World, i: nat)
    requires Later(w, v) && i < |w.history| && Justified(w.history, w.requests, i)
    ensures Justified(v.history, v.requests, i)
  {
    var h, g := w.history, v.history;
    match h[i]
    case AdmittedByDecision(tid, r, d, _) =>
      BackedLater(h, g, i, i, r, d);
    case AdmittedByLease(tid, _, lease, _) =>
      assert h[..i] == g[..i];
    case LeaseCreated(lease) =>
      LeaseBackedLater(h, g, i, i, lease);
    case Execution(tid, _) => AdmittedBeforeLater(h, g, i, i, tid);
    case _ =>
  }

  predicate Past(pc: Pc) {
    pc.Admitted? || pc.Executed? || pc.Failed?
  }

  /** An event that admits and executes nothing, creates a lease only with an approval behind it, and
      reviews only what was asked. */
  ghost predicate Harmless(w: World, i: nat)
    requires i < |w.history|
  {
    var e := w.history[i];
    && AdmittedThread(e).None? && !e.Execution?
    && (e.LeaseCreated? ==> LeaseBacked(w.history, i, e.lease))
    && (e.Reviewed? ==> Known(w, e.target))
  }

  lemma HarmlessIsJustified(w: World, i: nat)
    requires i < |w.history| && Harmless(w, i)
    ensures Justified(w.history, w.requests, i) && Recorded(w, i)
  {
  }

  /** A thread that is past its last section stays so, and no thread changes its command or its process. */
  ghost predicate Onward(w: World, v: World, tid: ThreadId)
    requires tid in w.threads
  {
    && tid in v.threads && v.threads[tid].process == w.threads[tid].process && v.threads[tid].command == w.threads[tid].command
    && (Past(w.threads[tid].pc) ==>
          v.threads[tid].pc == w.threads[tid].pc || (w.threads[tid].pc.Admitted? && v.threads[tid].pc.Failed?))
  }

  lemma RecordedLater(w: World, v: World, i: nat)
    requires Later(w, v) && i < |w.history| && Recorded(w, i)
    requires forall tid | tid in w.threads :: Onward(w, v, tid)
    ensures Recorded(v, i)
  {
    var e := w.history[i];
    assert v.history[i] == e;
    if AdmittedThread(e).Some? {
      assert Onward(w, v, AdmittedThread(e).value);
    }
    if e.Execution? {
      assert Onward(w, v, e.tid);
    }
  }

  /** A step whose new events admit and execute nothing keeps the trace, if every entry that it
      changes is itself traced. */
  lemma TracedQuiet(w: World, v: World)
    requires Traced(w) && Later(w, v)
    requires forall i | |w.history| <= i < |v.history| :: Harmless(v, i)
    requires forall tid | tid in w.threads :: Onward(w, v, tid)
    requires forall id | id in v.pending :: (id in w.pending && v.pending[id] == w.pending[id]) || ItemTraced(v, id)
    requires forall tid | tid in v.threads :: (tid in w.threads && v.threads[tid].pc == w.threads[tid].pc) || ThreadTraced(v, tid)
    requires forall id | id in v.tables.leases ::
               (id in w.tables.leases && v.tables.leases[id] == w.tables.leases[id]) || LeaseBacked(v.history, |v.history|, v.tables.leases[id])
    ensures Traced(v)
  {
    var h, g := w.history, v.history;
    forall i | 0 <= i < |g| ensures Justified(g, v.requests, i) && Recorded(v, i) {
      if i < |h| {
        JustifiedLater(w, v, i);
        RecordedLater(w, v, i);
      } else {
        HarmlessIsJustified(v, i);
      }
    }
    hide Justified, Recorded, Harmless;
    forall id | id in v.pending ensures ItemTraced(v, id) {
      if id in w.pending && v.pending[id] == w.pending[id] && w.pending[id].decision.outcome == Approved {
        assert ItemTraced(w, id);
        BackedLater(h, g, |h|, |g|, w.pending[id].request, w.pending[id].decision);
      }
    }
    forall tid | tid in v.threads ensures ThreadTraced(v, tid) {
      if tid in w.threads && v.threads[tid].pc == w.threads[tid].pc {
        assert ThreadTraced(w, tid);
        ThreadTracedLater(w, v, tid);
      }
    }
    forall id | id in v.tables.leases ensures LeaseBacked(g, |g|, v.tables.leases[id]) {
      if id in w.tables.leases && v.tables.leases[id] == w.tables.leases[id] {
        LeaseBackedLater(h, g, |h|, |g|, w.tables.leases[id]);
      }
    }
  }

  lemma ThreadTracedLater(w: World, v: World, tid: ThreadId)
    requires Later(w, v) && tid in w.threads && tid in v.threads && v.threads[tid].pc == w.threads[tid].pc && ThreadTraced(w, tid)
    ensures ThreadTraced(v, tid)
  {
    var h, g, pc := w.history, v.history, w.threads[tid].pc;
    if (pc.Returned? || pc.Resuming?) && pc.decision.outcome == Approved {
      BackedLater(h, g, |h|, |g|, pc.request, pc.decision);
    }
    if pc.Admitted? {
      AdmittedBeforeLater(h, g, |h|, |g|, tid);
    }
  }

  /** Appending the admission or the execution of one thread. */
  lemma TracedAppend(w: World, tid: ThreadId, e: Event, pc: Pc)
    requires Traced(w) && tid in w.threads
    requires (AdmittedThread(e) == Some(tid) && !Past(w.threads[tid].pc) && pc.Admitted?)
          || (e == Execution(tid, w.threads[tid].command) && w.threads[tid].pc.Admitted? && pc.Executed?)
    requires e.AdmittedByLease? ==> e.session.process == w.threads[tid].process
    requires Justified(w.history + [e], w.requests, |w.history|)
    ensures Traced(Log(Goto(w, tid, pc), [e]))
  {
    var v := Log(Goto(w, tid, pc), [e]);
    var h, g := w.history, v.history;
    forall i | 0 <= i < |g| ensures Justified(g, v.requests, i) && Recorded(v, i) {
      if i < |h| {
        assert Recorded(w, i);
        JustifiedLater(w, v, i);
      }
    }
    forall id | id in v.pending ensures ItemTraced(v, id) {
      assert ItemTraced(w, id);
      if w.pending[id].decision.outcome == Approved {
        BackedLater(h, g, |h|, |g|, w.pending[id].request, w.pending[id].decision);
      }
    }
    forall other | other in v.threads ensures ThreadTraced(v, other) {
      assert ThreadTraced(w, other);
      if other != tid {
        ThreadTracedLater(w, v, other);
      } else if pc.Admitted? {
        assert AdmittedThread(g[|h|]) == Some(tid);
      }
    }
    forall id | id in v.tables.leases ensures LeaseBacked(g, |g|, v.tables.leases[id]) {
      LeaseBackedLater(h, g, |h|, |g|, w.tables.leases[id]);
    }
  }

  lemma NotAdmittedYet(w: World, tid: ThreadId, e: Event)
    requires Traced(w) && tid in w.threads && !Past(w.threads[tid].pc)
    ensures !AdmittedBefore(w.history + [e], |w.history|, tid)
  {
    forall k | 0 <= k < |w.history| ensures AdmittedThread((w.history + [e])[k]) != Some(tid) {
      assert Recorded(w, k);
    }
  }

  lemma TracedAdmitByLease(w: World, tid: ThreadId, session: Session, id: Id, at: Time)
    requires Traced(w) && tid in w.threads && w.threads[tid].pc.Called? && id in w.tables.leases
    requires Stands(w.history, w.tables.leases[id]) && session.active && session.process == w.threads[tid].process && Matches(w.tables.leases[id], session, at)
    ensures Traced(Log(Goto(w, tid, Admitted), [AdmittedByLease(tid, session, w.tables.leases[id], at)]))
  {
    var e := AdmittedByLease(tid, session, w.tables.leases[id], at);
    NotAdmittedYet(w, tid, e);
    assert (w.history + [e])[..|w.history|] == w.history;
    hide Traced;
    TracedAppend(w, tid, e, Admitted);
  }

  /** A thread that was not admitted may fail. */
  lemma TracedFailure(w: World, tid: ThreadId, error: ErrorCode)
    requires Traced(w) && tid in w.threads && !Past(w.threads[tid].pc)
    ensures Traced(Goto(w, tid, Failed(error)))
  {
    hide Traced, ItemTraced, LeaseBacked;
    TracedQuiet(w, Goto(w, tid, Failed(error)));
  }

  lemma TracedSubmit(w: World, tid: ThreadId, request: Request)
    requires Traced(w) && tid in w.threads && w.threads[tid].pc.Called? && request.id !in w.requests
    ensures Traced(Submit(w, tid, request))
  {
    hide Traced;
    TracedQuiet(w, Submit(w, tid, request));
  }

  lemma TracedBegin(w: World, tid: ThreadId, at: Time, lease: Option<Id>, id: Option<Id>)
    requires Fits(w) && Traced(w) && Kept(w) && BeginAllowed(w, tid, at, lease, id)
    ensures Traced(Begin(w, tid, at, lease, id))
  {
    assert forall k | k in w.requests :: RequestFits(w, k);
    TableStands(w);
    hide Traced, Fits, Kept, RequestFits, Matches, SomeMatch, Submit;
    var found := ActiveSession(w.tables, w.threads[tid].process);
    if found.None? {
      TracedFailure(w, tid, NoActiveTurn);
    } else if lease.Some? {
      TracedAdmitByLease(w, tid, w.tables.sessions[found.value], lease.value, at);
    } else if id.None? {
      TracedFailure(w, tid, InternalError);
    } else {
      IssuedIsNew(w, id.value);
      TracedSubmit(w, tid, NewRequest(w, w.threads[tid], w.tables.sessions[found.value], at, id.value));
    }
  }

  /** What is in the lease table stands in the history. */
  lemma TableStands(w: World)
    requires Fits(w) && Kept(w)
    ensures forall id | id in w.tables.leases :: Stands(w.history, w.tables.leases[id])
  {
    forall id | id in w.tables.leases ensures Stands(w.history, w.tables.leases[id]) {
      assert LeaseFits(w, id) && InTable(w.tables.leases, w.tables.leases[id]);
    }
  }

  lemma IssuedIsNew(w: World, id: Id)
    requires id !in w.issued && forall k | k in w.requests :: RequestFits(w, k)
    ensures id !in w.requests
  {
  }

  lemma TracedEnsure(w: World, request: Request, decision: Decision, at: Time, leaseId: Option<Id>)
    requires Traced(w) && decision.Valid() && decision.outcome == Approved && Backed(w.history, |w.history|, request, decision)
    ensures Traced(Ensure(w, request, decision, at, leaseId).0)
  {
    var v := Ensure(w, request, decision, at, leaseId).0;
    EnsureEffect(w, request, decision, at, leaseId);
    if NeedsLease(w.tables, request, decision, at) && leaseId.Some? {
      var lease := NewLease(w.cfg, request, decision, at, leaseId.value);
      var k :| 0 <= k < |w.history| && Speaks(w.history[k], request, decision);
      assert Grants(v.history[k], lease);
      hide Traced, NeedsLease;
      TracedQuiet(w, v);
    }
  }

  lemma TracedAdmit(w: World, tid: ThreadId, request: Request, decision: Decision, leaseId: Option<Id>)
    requires Traced(w) && Keyed(w.tables.sessions)
    requires tid in w.threads && w.threads[tid].pc == Resuming(request, decision)
    requires request.id in w.requests && w.requests[request.id] == Origin(request, tid)
    requires decision.Valid() && decision.outcome == Approved && ContextActive(w.tables.sessions, request)
    ensures Traced(Admit(w, tid, request, decision, leaseId))
  {
    assert ThreadTraced(w, tid);
    var (u, error) := Ensure(w, request, decision, w.clock, leaseId);
    TracedEnsure(w, request, decision, w.clock, leaseId);
    if error.Some? {
      hide Traced;
      TracedFailure(u, tid, error.value);
    } else {
      var e := AdmittedByDecision(tid, request, decision, w.tables.sessions[RequestKey(request)]);
      NotAdmittedYet(u, tid, e);
      BackedLater(w.history, u.history + [e], |w.history|, |u.history|, request, decision);
      hide Traced;
      TracedAppend(u, tid, e, Admitted);
    }
  }

  lemma TracedFinish(w: World, tid: ThreadId, leaseId: Option<Id>)
    requires Keyed(w.tables.sessions) && ThreadFits(w, tid) && Traced(w) && w.threads[tid].pc.Resuming?
    ensures Traced(Finish(w, tid, leaseId))
  {
    hide Traced, Admit, ContextActive, ItemTraced, LeaseBacked, Ensure;
    var Resuming(request, decision) := w.threads[tid].pc;
    var v := w.(tables := w.tables.(inflight := w.tables.inflight - {request.id}));
    TracedQuiet(w, v);
    if decision.Valid() && decision.outcome == Approved && ContextActive(v.tables.sessions, request) {
      TracedAdmit(v, tid, request, decision, leaseId);
    } else {
      TracedQuiet(v, Finish(w, tid, leaseId));
    }
  }

  lemma TracedAnswer(w: World, pending: P.Table, e: Event)
    requires Traced(w) && e.Reviewed? && Known(w, e.target)
    requires forall id | id in pending ::
               (id in w.pending && pending[id] == w.pending[id]) || ItemTraced(Log(w.(pending := pending, lock := Free), [e]), id)
    ensures Traced(Log(w.(pending := pending, lock := Free), [e]))
  {
    hide Traced, ItemTraced, LeaseBacked;
    TracedQuiet(w, Log(w.(pending := pending, lock := Free), [e]));
  }

  lemma TracedReview(w: World, target: Id, outcome: Outcome, scope: Scope, uid: nat)
    requires P.WellFormed(w.pending) && Traced(w) && forall id | id in w.pending :: Known(w, w.pending[id].request)
    requires P.Review(w.pending, w.tables.ended, target, outcome, scope, uid).1.Success?
    ensures var (pending, answer) := P.Review(w.pending, w.tables.ended, target, outcome, scope, uid);
            var u := Log(w.(pending := pending, lock := Free), [Reviewed(answer.value.request, answer.value.decision)]);
            && Traced(u)
            && (outcome == Approved ==> Backed(u.history, |u.history|, answer.value.request, answer.value.decision))
  {
    var (pending, answer) := P.Review(w.pending, w.tables.ended, target, outcome, scope, uid);
    var (request, decision) := (answer.value.request, answer.value.decision);
    var u := Log(w.(pending := pending, lock := Free), [Reviewed(request, decision)]);
    P.ReviewIsExact(w.pending, w.tables.ended, target, outcome, scope, uid);
    P.ReviewSucceeds(w.pending, w.tables.ended, target, outcome, scope, uid);
    hide Traced, P.Review, P.Answer, P.Prune, P.WellFormed, Covers, Known, Backed;
    forall id | id in pending && pending[id] != w.pending[id] ensures ItemTraced(u, id) {
      ReviewedItemTraced(u, id, request, decision);
    }
    CoversItself(decision.scope, request);
    assert decision.outcome == outcome;
    hide ItemTraced, P.ManualDecision, P.EndDecision, Known;
    TracedAnswer(w, pending, Reviewed(request, decision));
    if outcome == Approved {
      ReviewSpeaks(u.history, request, decision);
    }
  }

  lemma ReviewSpeaks(h: seq<Event>, request: Request, decision: Decision)
    requires |h| > 0 && h[|h| - 1] == Reviewed(request, decision) && decision.outcome == Approved
    requires Covers(decision.scope, request, request)
    ensures Backed(h, |h|, request, decision)
  {
    assert Speaks(h[|h| - 1], request, decision);
  }

  lemma CoversItself(scope: Scope, request: Request)
    ensures Covers(scope, request, request)
  {
  }

  lemma ReviewedItemTraced(u: World, id: Id, request: Request, decision: Decision)
    requires id in u.pending && |u.history| > 0 && u.history[|u.history| - 1] == Reviewed(request, decision)
    requires u.pending[id].decision.outcome == Approved ==>
               u.pending[id].decision == decision && Covers(decision.scope, request, u.pending[id].request)
    ensures ItemTraced(u, id)
  {
    if u.pending[id].decision.outcome == Approved {
      assert Speaks(u.history[|u.history| - 1], u.pending[id].request, decision);
    }
  }

  lemma TracedClose(w: World, leaseId: Option<Id>)
    requires Fits(w) && Traced(w) && w.lock.Deciding?
    ensures Traced(Close(w, leaseId))
  {
    PendingFits(w);
    hide *;
    var Deciding(at, target, outcome, scope, uid) := w.lock;
    var (pending, answer) := P.Review(w.pending, w.tables.ended, target, outcome, scope, uid);
    CloseCases(w, leaseId);
    TracedAnswered(w);
    if answer.Success? && outcome == Approved {
      TracedEnsure(Answered(w), answer.value.request, answer.value.decision, at, leaseId);
    }
  }

  lemma TracedAnswered(w: World)
    requires Fits(w) && Traced(w) && w.lock.Deciding?
    ensures Traced(Answered(w))
    ensures var Deciding(at, target, outcome, scope, uid) := w.lock;
            var answer := P.Review(w.pending, w.tables.ended, target, outcome, scope, uid).1;
            var u := Answered(w);
            answer.Success? && outcome == Approved ==> Backed(u.history, |u.history|, answer.value.request, answer.value.decision)
  {
    PendingFits(w);
    hide Fits, Traced, Known;
    var Deciding(at, target, outcome, scope, uid) := w.lock;
    var (pending, answer) := P.Review(w.pending, w.tables.ended, target, outcome, scope, uid);
    if answer.Success? {
      PendingKnown(w);
      hide P.Review;
      TracedReview(w, target, outcome, scope, uid);
    } else {
      P.RefusedReviewAnswersNothing(w.pending, w.tables.ended, target, outcome, scope, uid);
      hide P.Review;
      TracedPrune(w, pending);
    }
  }

  lemma PendingKnown(w: World)
    requires Fits(w)
    ensures forall id | id in w.pending :: Known(w, w.pending[id].request)
  {
    PendingFits(w);
  }

  lemma TracedPrune(w: World, pending: P.Table)
    requires Traced(w) && (pending == w.pending || pending == P.Prune(w.pending, w.tables.ended))
    ensures Traced(w.(pending := pending, lock := Free))
  {
    hide Traced;
    TracedQuiet(w, w.(pending := pending, lock := Free));
  }

  lemma TracedSweep(w: World, at: Time)
    requires Traced(w)
    ensures Traced(SweepAt(w, at))
  {
    hide Traced;
    TracedQuiet(w, SweepAt(w, at));
  }

  lemma TracedAdvance(w: World, at: Time, process: Identity, event: LifecycleEvent)
    requires Traced(w)
    ensures Traced(AdvanceWorld(w, at, process, event))
  {
    AdvanceEffect(w.tables, at, process, event);
    hide Traced, Advance;
    TracedQuiet(w, AdvanceWorld(w, at, process, event));
  }

  lemma TracedCollect(w: World, tid: ThreadId)
    requires Traced(w) && Enabled(w, Collect(tid)) && w.pending[w.threads[tid].pc.request.id].request == w.threads[tid].pc.request
    ensures Traced(Apply(w, Collect(tid)))
  {
    assert ItemTraced(w, w.threads[tid].pc.request.id);
    hide Traced, Fits;
    TracedQuiet(w, Apply(w, Collect(tid)));
  }

  lemma TracedElsewhere(w: World, s: Step)
    requires Traced(w) && Enabled(w, s)
    requires s.Tick? || s.Die? || s.Call? || s.Disconnect? || s.DeadlineFires? || s.Revoke?
    ensures Traced(Apply(w, s))
  {
    hide Traced;
    TracedQuiet(w, Apply(w, s));
  }

  lemma TracedRegister(w: World, tid: ThreadId)
    requires Traced(w) && Enabled(w, Register(tid))
    ensures Traced(Enqueue(w, tid))
  {
    hide Traced;
    TracedQuiet(w, Enqueue(w, tid));
  }

  /** A thread that holds a request moves on with it, and its queue entry keeps or gets no approval. */
  lemma TracedMoves(w: World, v: World, tid: ThreadId, r: Request)
    requires Traced(w) && Moves(w, v, tid, r) && !Past(v.threads[tid].pc) && ThreadTraced(v, tid)
    requires forall id | id in v.pending && (id !in w.pending || v.pending[id] != w.pending[id]) :: ItemTraced(v, id)
    ensures Traced(v)
  {
    hide Traced, ItemTraced, LeaseBacked, ThreadTraced;
    TracedQuiet(w, v);
  }

  lemma TracedWake(w: World, s: Step)
    requires Fits(w) && Traced(w) && Enabled(w, s) && (s.WakeDecided? || s.WakeEnded?)
    ensures Traced(Apply(w, s))
  {
    HolderFits(w, s.tid);
    var r := HeldRequest(w.threads[s.tid].pc).value;
    assert w.threads[s.tid].pc == Waiting(r) && r.id in w.pending && ItemFits(w.pending[r.id], r);
    hide *;
    WakeDoes(w, s, r);
    WokenTraced(w, s, r);
    TracedMoves(w, Apply(w, s), s.tid, r);
  }

  lemma WokenTraced(w: World, s: Step, r: Request)
    requires Enabled(w, s) && (s.WakeDecided? || s.WakeEnded?) && w.threads[s.tid].pc == Waiting(r)
    ensures ThreadTraced(Apply(w, s), s.tid) && !Past(Apply(w, s).threads[s.tid].pc)
    ensures var v := Apply(w, s);
            forall id | id in v.pending && (id !in w.pending || v.pending[id] != w.pending[id]) :: ItemTraced(v, id)
  {
    hide Backed;
  }

  lemma TracedRelease(w: World, tid: ThreadId)
    requires Traced(w) && Enabled(w, ReleaseContext(tid))
    ensures Traced(Apply(w, ReleaseContext(tid)))
  {
    assert ThreadTraced(w, tid);
    hide Traced, ItemTraced, LeaseBacked;
    TracedQuiet(w, Apply(w, ReleaseContext(tid)));
  }

  lemma TracedStart(w: World, tid: ThreadId)
    requires Traced(w) && tid in w.threads && w.threads[tid].pc.Admitted?
    ensures Traced(Start(w, tid))
  {
    assert ThreadTraced(w, tid);
    var e := Execution(tid, w.threads[tid].command);
    if Start(w, tid).threads[tid].pc.Executed? {
      AdmittedBeforeLater(w.history, w.history + [e], |w.history|, |w.history|, tid);
      forall j | 0 <= j < |w.history| ensures !ExecutionOf(w.history[j], tid) {
        assert Recorded(w, j);
      }
      TracedAppend(w, tid, e, Executed);
    } else {
      hide Traced;
      TracedQuiet(w, Start(w, tid));
    }
  }

  lemma TracedStep(w: World, s: Step)
    requires Fits(w) && Kept(w) && Traced(w) && Enabled(w, s)
    ensures Traced(Apply(w, s))
  {
    hide Fits, Kept, Traced;
    match s
    case HandleLifecycle(at, process, event) =>
      TracedSweep(w, at);
      TracedAdvance(SweepAt(w, at), at, process, event);
    case BeginRequest(tid, at, lease, id) =>
      FitsSweep(w, at);
      TracedSweep(w, at);
      KeptSweep(w, at);
      TracedBegin(SweepAt(w, at), tid, at, lease, id);
    case OpenDecide(at, target, outcome, scope, uid) =>
      TracedSweep(w, at);
      TracedQuiet(SweepAt(w, at), Apply(w, s));
    case OpenPending =>
      TracedSweep(w, w.clock);
      TracedQuiet(SweepAt(w, w.clock), Apply(w, s));
    case ListLeases => TracedSweep(w, w.clock);
    case FinishRequest(tid, leaseId) =>
      HolderFits(w, tid);
      SessionsKeyed(w);
      TracedFinish(w, tid, leaseId);
    case CloseDecide(leaseId) => TracedClose(w, leaseId);
    case ClosePending => TracedPrune(w, P.Prune(w.pending, w.tables.ended));
    case Register(tid) => TracedRegister(w, tid);
    case Collect(tid) =>
      HolderFits(w, tid);
      TracedCollect(w, tid);
    case Launch(tid) => TracedStart(w, tid);
    case WakeDecided(_) => TracedWake(w, s);
    case WakeEnded(_) => TracedWake(w, s);
    case ReleaseContext(tid) => TracedRelease(w, tid);
    case _ =>
      TracedElsewhere(w, s);
  }

  lemma SessionsKeyed(w: World)
    requires Fits(w)
    ensures Keyed(w.tables.sessions)
  {
  }
}

/**
 The lease table says exactly what the history says: a lease stands while nothing has ended it since
 it was created.  So a request is admitted without a review exactly when the history allows it.
 */
module Ledger {
  import opened Wrappers
  import opened Approval
  import P = Provider
  import opened BrokerTables
  import opened Machine
  import opened Shape
  import opened Safety

  /** The event ends the lease: seen expired or with its process gone, revoked by its ID, its session
      removed, or, for a message lease, its turn moved on. */
  predicate Ends(e: Event, lease: Lease) {
    match e
    case Swept(at, dead) => lease.expiresAt <= at || lease.process in dead
    case TurnMoved(key) => lease.scope == MessageScope && lease.Key() == key
    case SessionGone(key) => lease.Key() == key
    case LeaseRevoked(id) => lease.id == id
    case _ => false
  }

  /** The history contains the creation of the lease and, after it, no end. */
  ghost predicate Stands(h: seq<Event>, lease: Lease) {
    exists i | 0 <= i < |h| :: h[i] == LeaseCreated(lease) && forall j | i < j < |h| :: !Ends(h[j], lease)
  }

  predicate InTable(leases: map<Id, Lease>, lease: Lease) {
    lease.id in leases && leases[lease.id] == lease
  }

  ghost predicate Balanced(leases: map<Id, Lease>, h: seq<Event>) {
    forall lease :: InTable(leases, lease) <==> Stands(h, lease)
  }

  lemma StandsAppend(h: seq<Event>, e: Event, lease: Lease)
    ensures Stands(h + [e], lease) <==> e == LeaseCreated(lease) || (Stands(h, lease) && !Ends(e, lease))
  {
    var g := h + [e];
    if Stands(h, lease) && !Ends(e, lease) {
      var i :| 0 <= i < |h| && h[i] == LeaseCreated(lease) && forall j | i < j < |h| :: !Ends(h[j], lease);
      assert g[i] == LeaseCreated(lease) && forall j | i < j < |g| :: !Ends(g[j], lease);
    }
    if e == LeaseCreated(lease) {
      assert g[|h|] == LeaseCreated(lease);
    }
    if Stands(g, lease) && e != LeaseCreated(lease) {
      var i :| 0 <= i < |g| && g[i] == LeaseCreated(lease) && forall j | i < j < |g| :: !Ends(g[j], lease);
      assert h[i] == LeaseCreated(lease) && forall j | i < j < |h| :: !Ends(h[j], lease) by {
        forall j | i < j < |h| ensures !Ends(h[j], lease) { assert !Ends(g[j], lease); }
      }
      assert !Ends(g[|h|], lease);
    }
  }

  /** Appending one event: the new table must drop exactly what the event ends. */
  lemma BalancedAppend(before: map<Id, Lease>, h: seq<Event>, e: Event, after: map<Id, Lease>)
    requires Balanced(before, h)
    requires forall lease :: InTable(after, lease) <==> e == LeaseCreated(lease) || (InTable(before, lease) && !Ends(e, lease))
    ensures Balanced(after, h + [e])
  {
    forall lease ensures InTable(after, lease) <==> Stands(h + [e], lease) {
      StandsAppend(h, e, lease);
    }
  }

  /** Appending an event that neither creates nor ends a lease. */
  lemma BalancedSkip(leases: map<Id, Lease>, h: seq<Event>, e: Event)
    requires Balanced(leases, h) && (e.Reviewed? || AdmissionOrExecution(e))
    ensures Balanced(leases, h + [e])
  {
    BalancedAppend(leases, h, e, leases);
  }

  predicate AdmissionOrExecution(e: Event) {
    e.AdmittedByDecision? || e.AdmittedByLease? || e.Execution?
  }

  /** No sweep in the history is later than the clock or knows of a death the world does not. */
  ghost predicate Dated(w: World) {
    forall i | 0 <= i < |w.history| && w.history[i].Swept? :: w.history[i].at <= w.clock && w.history[i].dead <= w.dead
  }

  ghost predicate Kept(w: World) {
    Balanced(w.tables.leases, w.history) && Dated(w)
  }

  lemma KeptSweep(w: World, at: Time)
    requires Fits(w) && Kept(w) && at <= w.clock
    ensures Kept(SweepAt(w, at))
  {
    BalancedAppend(w.tables.leases, w.history, Swept(at, w.dead), SweepAt(w, at).tables.leases);
  }

  /** A lifecycle event takes exactly the leases that it ends. */
  lemma AdvanceLeases(t: Tables, at: Time, process: Identity, event: LifecycleEvent, id: Id)
    requires Keyed(t.sessions)
    ensures var ending := Ending(t, SessionKey(process, event.sessionId), event.kind);
            var after := Advance(t, at, process, event).0.leases;
            && (id in after ==> id in t.leases && after[id] == t.leases[id])
            && (id in t.leases ==> (id in after <==> ending.None? || !Ends(ending.value, t.leases[id])))
  {
  }

  lemma KeptAdvance(w: World, at: Time, process: Identity, event: LifecycleEvent)
    requires Fits(w) && Kept(w)
    ensures Kept(AdvanceWorld(w, at, process, event))
  {
    assert Keyed(w.tables.sessions);
    hide Fits, Advance, Ends;
    var v := AdvanceWorld(w, at, process, event);
    var ending := Ending(w.tables, SessionKey(process, event.sessionId), event.kind);
    forall id {
      AdvanceLeases(w.tables, at, process, event, id);
    }
    if ending.Some? {
      BalancedAppend(w.tables.leases, w.history, ending.value, v.tables.leases);
    } else {
      assert v.tables.leases == w.tables.leases && v.history == w.history;
    }
  }

  lemma KeptEnsure(w: World, request: Request, decision: Decision, at: Time, leaseId: Option<Id>)
    requires Kept(w) && NewId(w, leaseId) && forall id | id in w.tables.leases :: id in w.issued
    ensures Kept(Ensure(w, request, decision, at, leaseId).0)
  {
    var v := Ensure(w, request, decision, at, leaseId).0;
    if NeedsLease(w.tables, request, decision, at) && leaseId.Some? {
      var lease := NewLease(w.cfg, request, decision, at, leaseId.value);
      BalancedAppend(w.tables.leases, w.history, LeaseCreated(lease), v.tables.leases);
    }
  }

  /** Steps that touch neither leases nor history, except perhaps for one event about a thread. */
  lemma KeptQuiet(w: World, v: World)
    requires Kept(w) && v.tables.leases == w.tables.leases && w.clock <= v.clock && w.dead <= v.dead
    requires v.history == w.history || exists e :: v.history == w.history + [e] && (e.Reviewed? || AdmissionOrExecution(e))
    ensures Kept(v)
  {
    if v.history != w.history {
      var e :| v.history == w.history + [e] && (e.Reviewed? || AdmissionOrExecution(e));
      BalancedSkip(w.tables.leases, w.history, e);
    }
  }

  lemma KeptAdmit(w: World, tid: ThreadId, request: Request, decision: Decision, leaseId: Option<Id>)
    requires Kept(w) && tid in w.threads && NewId(w, leaseId) && RequestKey(request) in w.tables.sessions
    requires forall id | id in w.tables.leases :: id in w.issued
    ensures Kept(Admit(w, tid, request, decision, leaseId))
  {
    KeptEnsure(w, request, decision, w.clock, leaseId);
    hide Kept;
    var (u, error) := Ensure(w, request, decision, w.clock, leaseId);
    if error.None? {
      var e := AdmittedByDecision(tid, request, decision, w.tables.sessions[RequestKey(request)]);
      assert Admit(w, tid, request, decision, leaseId).history == u.history + [e];
    }
    KeptQuiet(u, Admit(w, tid, request, decision, leaseId));
  }

  lemma KeptFinish(w: World, tid: ThreadId, leaseId: Option<Id>)
    requires Fits(w) && Kept(w) && tid in w.threads && w.threads[tid].pc.Resuming? && NewId(w, leaseId)
    ensures Kept(Finish(w, tid, leaseId))
  {
    assert forall id | id in w.tables.leases :: LeaseFits(w, id);
    hide Fits, Kept, Admit;
    var Resuming(request, decision) := w.threads[tid].pc;
    var v := w.(tables := w.tables.(inflight := w.tables.inflight - {request.id}));
    KeptQuiet(w, v);
    if decision.Valid() && decision.outcome == Approved && ContextActive(v.tables.sessions, request) {
      KeptAdmit(v, tid, request, decision, leaseId);
    } else {
      KeptQuiet(v, Finish(w, tid, leaseId));
    }
  }

  lemma KeptClose(w: World, leaseId: Option<Id>)
    requires Fits(w) && Kept(w) && w.lock.Deciding? && NewId(w, leaseId)
    ensures Kept(Close(w, leaseId))
  {
    assert forall id | id in w.tables.leases :: LeaseFits(w, id);
    hide Fits, Kept, P.Review;
    var Deciding(at, target, outcome, scope, uid) := w.lock;
    var (pending, answer) := P.Review(w.pending, w.tables.ended, target, outcome, scope, uid);
    var v := w.(pending := pending, lock := Free);
    KeptQuiet(w, v);
    if answer.Success? {
      var e := Reviewed(answer.value.request, answer.value.decision);
      var u := Log(v, [e]);
      assert u.history == v.history + [e];
      KeptQuiet(v, u);
      KeptEnsure(u, answer.value.request, answer.value.decision, at, leaseId);
    }
  }

  lemma KeptBegin(w: World, tid: ThreadId, at: Time, lease: Option<Id>, id: Option<Id>)
    requires Kept(w) && BeginAllowed(w, tid, at, lease, id)
    ensures Kept(Begin(w, tid, at, lease, id))
  {
    hide Kept, Matches, SomeMatch;
    var v := Begin(w, tid, at, lease, id);
    if v.history != w.history {
      assert v.history == w.history + [v.history[|w.history|]];
    }
    KeptQuiet(w, v);
  }

  lemma KeptRevoke(w: World, id: Id)
    requires Fits(w) && Kept(w)
    ensures Kept(RevokeLease(w, id))
  {
    if id in w.tables.leases {
      assert forall k | k in w.tables.leases :: LeaseFits(w, k);
      BalancedAppend(w.tables.leases, w.history, LeaseRevoked(id), w.tables.leases - {id});
    }
  }

  lemma KeptStart(w: World, tid: ThreadId)
    requires Kept(w) && tid in w.threads
    ensures Kept(Start(w, tid))
  {
    hide Kept;
    assert Start(w, tid).history == w.history || Start(w, tid).history == w.history + [Execution(tid, w.threads[tid].command)];
    KeptQuiet(w, Start(w, tid));
  }

  lemma KeptElsewhere(w: World, s: Step)
    requires Kept(w) && Enabled(w, s)
    requires s.Tick? || s.Die? || s.Call? || s.Disconnect? || s.DeadlineFires? || s.ClosePending? || s.Register?
          || s.WakeDecided? || s.WakeEnded? || s.Collect? || s.ReleaseContext?
    ensures Kept(Apply(w, s))
  {
    hide Kept;
    KeptQuiet(w, Apply(w, s));
  }

  lemma KeptStep(w: World, s: Step)
    requires Fits(w) && Safe(w) && Kept(w) && Enabled(w, s)
    ensures Kept(Apply(w, s))
  {
    hide Fits, Safe, Kept;
    match s
    case HandleLifecycle(at, process, event) =>
      KeptSweep(w, at);
      FitsSweep(w, at);
      SafeSweep(w, at);
      KeptAdvance(SweepAt(w, at), at, process, event);
    case BeginRequest(tid, at, lease, id) =>
      KeptSweep(w, at);
      KeptBegin(SweepAt(w, at), tid, at, lease, id);
    case OpenDecide(at, _, _, _, _) =>
      KeptSweep(w, at);
      KeptQuiet(SweepAt(w, at), Apply(w, s));
    case OpenPending =>
      KeptSweep(w, w.clock);
      KeptQuiet(SweepAt(w, w.clock), Apply(w, s));
    case ListLeases => KeptSweep(w, w.clock);
    case FinishRequest(tid, leaseId) => KeptFinish(w, tid, leaseId);
    case CloseDecide(leaseId) => KeptClose(w, leaseId);
    case Revoke(id) => KeptRevoke(w, id);
    case Launch(tid) => KeptStart(w, tid);
    case _ => KeptElsewhere(w, s);
  }

  /** A request gets past its first critical section without a review exactly when its process has
      one session with an open turn and a lease of that session stands in the history, counting the
      sweep the section starts with. */
  lemma AdmittedWithoutReview(w: World, tid: ThreadId, at: Time, lease: Option<Id>, id: Option<Id>)
    requires Fits(w) && Safe(w) && Kept(w) && Enabled(w, BeginRequest(tid, at, lease, id))
    ensures Apply(w, BeginRequest(tid, at, lease, id)).threads[tid].pc.Admitted? <==>
            exists key, l: Lease :: OnlyActive(SweepAt(w, at).tables, w.threads[tid].process, key) && l.Key() == key &&
                             Stands(w.history + [Swept(at, w.dead)], l)
  {
    KeptSweep(w, at);
    FitsSweep(w, at);
    SafeSweep(w, at);
    hide Fits, Safe, Kept;
    var v := SweepAt(w, at);
    var found := ActiveSession(v.tables, w.threads[tid].process);
    assert v.history == w.history + [Swept(at, w.dead)];
    if found.Some? {
      MatchesStand(v, found.value, at);
    }
  }

  /** After a sweep, a session has a matching lease exactly when one stands. */
  lemma MatchesStand(w: World, key: SessionKey, at: Time)
    requires Fits(w) && Safe(w) && Kept(w) && key in w.tables.sessions
    requires forall id | id in w.tables.leases :: w.tables.leases[id].expiresAt > at
    ensures SomeMatch(w.tables, w.tables.sessions[key], at) <==> exists l: Lease :: l.Key() == key && Stands(w.history, l)
  {
    assert KeysFit(w);
    var session := w.tables.sessions[key];
    forall l: Lease | l.Key() == key && Stands(w.history, l) ensures SomeMatch(w.tables, session, at) {
      assert InTable(w.tables.leases, l);
      TurnTestNeverRejects(w, session, l.id, at);
      assert Matches(w.tables.leases[l.id], session, at);
    }
    if SomeMatch(w.tables, session, at) {
      var id :| id in w.tables.leases && Matches(w.tables.leases[id], session, at);
      assert LeaseFits(w, id) && InTable(w.tables.leases, w.tables.leases[id]);
      assert Stands(w.history, w.tables.leases[id]);
    }
  }

  /** What ended a lease since it was created, apart from the passing of time and the end of its process. */
  ghost predicate Uncancelled(h: seq<Event>, lease: Lease) {
    exists i | 0 <= i < |h| :: h[i] == LeaseCreated(lease) && forall j | i < j < |h| :: h[j].Swept? || !Ends(h[j], lease)
  }

  /** With an up-to-date clock the sweeps may be forgotten: a lease stands if it was created, has not
      expired, its process lives, and nothing has cancelled it since. */
  lemma StandsNow(w: World, lease: Lease)
    requires Dated(w)
    ensures Stands(w.history + [Swept(w.clock, w.dead)], lease) <==>
            Uncancelled(w.history, lease) && lease.expiresAt > w.clock && lease.process !in w.dead
  {
    StandsAppend(w.history, Swept(w.clock, w.dead), lease);
    if Uncancelled(w.history, lease) && lease.expiresAt > w.clock && lease.process !in w.dead {
      var h := w.history;
      var i :| 0 <= i < |h| && h[i] == LeaseCreated(lease) && forall j | i < j < |h| :: h[j].Swept? || !Ends(h[j], lease);
      assert forall j | i < j < |h| :: !Ends(h[j], lease);
      assert Stands(h, lease);
    }
  }
}

/**
 Why approvals cannot outlive their turn: the coupling between the broker and its provider, and the
 shape of the lease table, in every reachable state.

 `Decide` hands out leases without looking at the turn.  It is right because every change of a turn
 cancels the contexts of that turn under the broker's lock, and `Review` closes what is cancelled
 before it answers.
 */
module Safety {
  import opened Wrappers
  import opened Approval
  import P = Provider
  import opened BrokerTables
  import opened Machine
  import opened Shape

  /** An in-flight request whose context is live belongs to the open turn of its session. */
  ghost predicate Coupled(w: World, id: Id) {
    id in w.tables.inflight && id !in w.tables.ended && id in w.requests ==>
      ContextActive(w.tables.sessions, w.requests[id].request)
  }

  /** A lease belongs to an existing session; it is a session lease without a turn, or a message
      lease of exactly the open turn of its session. */
  predicate LeaseSound(sessions: map<SessionKey, Session>, lease: Lease) {
    && lease.Key() in sessions
    && var session := sessions[lease.Key()];
       || (lease.scope == SessionScope && lease.turn == None)
       || (lease.scope == MessageScope && session.active && lease.turn == Some(session.turn))
  }

  /** Two unexpired leases of one session and one scope are the same lease. */
  ghost predicate Unique(w: World, a: Id, b: Id) {
    && a in w.tables.leases && b in w.tables.leases
    && var (l, m) := (w.tables.leases[a], w.tables.leases[b]);
       l.Key() == m.Key() && l.scope == m.scope && l.expiresAt > w.clock && m.expiresAt > w.clock ==> a == b
  }

  ghost predicate Safe(w: World) {
    && (forall id | id in w.tables.inflight :: Coupled(w, id))
    && (forall id | id in w.tables.leases :: LeaseSound(w.tables.sessions, w.tables.leases[id]))
    && (forall a, b | a in w.tables.leases && b in w.tables.leases :: Unique(w, a, b))
    && (w.lock.Deciding? ==> w.lock.at <= w.clock)
  }

  /** The message leases of the active session always carry its turn, so comparing the turns can
      never turn one away. */
  lemma TurnTestNeverRejects(w: World, session: Session, id: Id, at: Time)
    requires Safe(w) && Keyed(w.tables.sessions) && id in w.tables.leases
    requires session.Key() in w.tables.sessions && w.tables.sessions[session.Key()] == session
    requires w.tables.leases[id].Key() == session.Key() && w.tables.leases[id].expiresAt > at
    ensures Matches(w.tables.leases[id], session, at)
  {
    assert LeaseSound(w.tables.sessions, w.tables.leases[id]);
  }

  /** Every request that a review approves belongs to the open turn of its session, although neither
      the provider nor `Decide` looks at the session. */
  lemma ReviewApprovesOnlyOpenTurns(w: World, target: Id, outcome: Outcome, scope: Scope, uid: nat)
    requires Fits(w) && Safe(w)
    requires P.Review(w.pending, w.tables.ended, target, outcome, scope, uid).1.Success?
    ensures var (after, answer) := P.Review(w.pending, w.tables.ended, target, outcome, scope, uid);
            && target in w.requests && answer.value.request == w.requests[target].request
            && ContextActive(w.tables.sessions, answer.value.request)
            && forall id | id in w.pending && !w.pending[id].decision.IsSet() && after[id].decision.outcome == Approved ::
                 id in w.requests && ContextActive(w.tables.sessions, w.requests[id].request)
  {
    var (after, answer) := P.Review(w.pending, w.tables.ended, target, outcome, scope, uid);
    PendingFits(w);
    P.ReviewIsExact(w.pending, w.tables.ended, target, outcome, scope, uid);
    forall id | id in w.pending && id !in w.tables.ended
      ensures id in w.requests && ContextActive(w.tables.sessions, w.requests[id].request)
    {
      assert RequestFits(w, id) && Coupled(w, id);
    }
  }

  /** The queue is well formed, holds the requests it is asked for, and only in-flight ones. */
  lemma PendingFits(w: World)
    requires Fits(w)
    ensures P.WellFormed(w.pending)
    ensures forall id | id in w.pending ::
              id in w.requests && id in w.tables.inflight && w.pending[id].request == w.requests[id].request
  {
    forall id | id in w.pending
      ensures id in w.requests && id in w.tables.inflight && w.pending[id].request == w.requests[id].request
      ensures w.pending[id].request.id == id && (w.pending[id].done <==> w.pending[id].decision.IsSet())
    {
      assert RequestFits(w, id);
    }
  }

  lemma SameTurn(sessions: map<SessionKey, Session>, a: Request, b: Request)
    requires ContextActive(sessions, a) && ContextActive(sessions, b)
    ensures Covers(MessageScope, a, b) <==> Covers(SessionScope, a, b)
  {
  }

  /** Every live queued request belongs to the open turn of its session. */
  lemma QueuedIsActive(w: World, id: Id)
    requires Fits(w) && Safe(w) && id in w.pending && id !in w.tables.ended
    ensures ContextActive(w.tables.sessions, w.pending[id].request)
  {
    PendingFits(w);
    assert Coupled(w, id);
  }

  /** Whether a review succeeds does not depend on its scope. */
  lemma ReviewsAlike(pending: P.Table, ended: P.Contexts, target: Id, uid: nat)
    ensures var (m, first) := P.Review(pending, ended, target, Approved, MessageScope, uid);
            var (s, second) := P.Review(pending, ended, target, Approved, SessionScope, uid);
            && (first.Success? <==> second.Success?) && (first.Failure? ==> m == s)
            && m.Keys == pending.Keys && s.Keys == pending.Keys
  {
    hide P.PruneItem, P.Finish, Covers;
  }

  lemma ItemsAgree(w: World, target: Id, m: Decision, s: Decision, id: Id)
    requires Fits(w) && Safe(w) && id in w.pending && target in w.pending && target !in w.tables.ended
    requires m.outcome == s.outcome == Approved && m.scope == MessageScope && s.scope == SessionScope
    ensures P.Answer(P.Prune(w.pending, w.tables.ended), w.pending[target].request, m)[id].decision.outcome
         == P.Answer(P.Prune(w.pending, w.tables.ended), w.pending[target].request, s)[id].decision.outcome
  {
    PendingFits(w);
    hide Fits, Safe, ContextActive, Covers, P.Answer, P.Prune;
    P.ReviewedItem(w.pending, w.tables.ended, w.pending[target].request, m, id);
    P.ReviewedItem(w.pending, w.tables.ended, w.pending[target].request, s, id);
    if id !in w.tables.ended {
      QueuedIsActive(w, target);
      QueuedIsActive(w, id);
      SameTurn(w.tables.sessions, w.pending[target].request, w.pending[id].request);
    }
  }

  /** In every reachable state an approval for the message and an approval for the session decide
      the same requests. */
  lemma MessageAndSessionReviewsAgree(w: World, target: Id, uid: nat)
    requires Fits(w) && Safe(w)
    ensures var (m, first) := P.Review(w.pending, w.tables.ended, target, Approved, MessageScope, uid);
            var (s, second) := P.Review(w.pending, w.tables.ended, target, Approved, SessionScope, uid);
            && (first.Success? <==> second.Success?)
            && forall id | id in w.pending :: m[id].decision.outcome == s[id].decision.outcome
  {
    hide *;
    var (m, first) := P.Review(w.pending, w.tables.ended, target, Approved, MessageScope, uid);
    var (s, second) := P.Review(w.pending, w.tables.ended, target, Approved, SessionScope, uid);
    PendingFits(w);
    ReviewsAlike(w.pending, w.tables.ended, target, uid);
    if first.Success? {
      P.ReviewSucceeds(w.pending, w.tables.ended, target, Approved, MessageScope, uid);
      P.ReviewSucceeds(w.pending, w.tables.ended, target, Approved, SessionScope, uid);
      ScopesOf(uid);
      forall id | id in w.pending ensures m[id].decision.outcome == s[id].decision.outcome {
        ItemsAgree(w, target, first.value.decision, second.value.decision, id);
      }
    }
  }

  lemma ScopesOf(uid: nat)
    ensures forall scope | scope == MessageScope || scope == SessionScope ::
              var d := P.ManualDecision(Approved, P.EffectiveScope(Approved, scope), uid); d.outcome == Approved && d.scope == scope
  {
  }

  lemma SafeSweep(w: World, at: Time)
    requires Fits(w) && Safe(w)
    ensures Safe(SweepAt(w, at))
  {
    var v := SweepAt(w, at);
    forall id | id in v.tables.inflight ensures Coupled(v, id) {
      assert RequestFits(w, id) && Coupled(w, id);
    }
    forall id | id in v.tables.leases ensures LeaseSound(v.tables.sessions, v.tables.leases[id]) {
      assert LeaseSound(w.tables.sessions, w.tables.leases[id]);
    }
    forall a, b | a in v.tables.leases && b in v.tables.leases ensures Unique(v, a, b) { assert Unique(w, a, b); }
  }

  lemma CoupledAdvance(w: World, at: Time, process: Identity, event: LifecycleEvent, id: Id)
    requires Keyed(w.tables.sessions) && id in w.tables.inflight && RequestFits(w, id) && Coupled(w, id)
    ensures Coupled(AdvanceWorld(w, at, process, event), id)
  {
    var v := AdvanceWorld(w, at, process, event);
    if w.tables.inflight[id].Key() == SessionKey(process, event.sessionId) {
      assert !event.kind.SessionStarted? && v.tables != w.tables ==> id in v.tables.ended;
    }
  }

  lemma LeaseSoundAdvance(t: Tables, at: Time, process: Identity, event: LifecycleEvent, id: Id)
    requires Keyed(t.sessions) && id in Advance(t, at, process, event).0.leases
    requires id in t.leases && LeaseSound(t.sessions, t.leases[id])
    ensures LeaseSound(Advance(t, at, process, event).0.sessions, t.leases[id])
  {
  }

  lemma SafeAdvance(w: World, at: Time, process: Identity, event: LifecycleEvent)
    requires Fits(w) && Safe(w)
    ensures Safe(AdvanceWorld(w, at, process, event))
  {
    var v := AdvanceWorld(w, at, process, event);
    AdvanceEffect(w.tables, at, process, event);
    forall id | id in v.tables.inflight ensures Coupled(v, id) {
      assert RequestFits(w, id);
      CoupledAdvance(w, at, process, event, id);
    }
    forall id | id in v.tables.leases ensures LeaseSound(v.tables.sessions, v.tables.leases[id]) {
      LeaseSoundAdvance(w.tables, at, process, event, id);
    }
    forall a, b | a in v.tables.leases && b in v.tables.leases ensures Unique(v, a, b) { assert Unique(w, a, b); }
  }

  lemma SafeEnsure(w: World, request: Request, decision: Decision, at: Time, leaseId: Option<Id>)
    requires Safe(w) && NewId(w, leaseId) && at <= w.clock
    requires forall id | id in w.tables.leases :: id in w.issued
    requires decision.Valid() && decision.outcome == Approved && ContextActive(w.tables.sessions, request)
    ensures Safe(Ensure(w, request, decision, at, leaseId).0)
  {
    var v := Ensure(w, request, decision, at, leaseId).0;
    EnsureEffect(w, request, decision, at, leaseId);
    if NeedsLease(w.tables, request, decision, at) && leaseId.Some? {
      var id := leaseId.value;
      var lease := NewLease(w.cfg, request, decision, at, id);
      assert v.tables.leases == w.tables.leases[id := lease];
      forall k | k in w.tables.leases && w.tables.leases[k].expiresAt > w.clock && w.tables.leases[k].Key() == lease.Key()
        ensures w.tables.leases[k].scope != lease.scope
      {
        assert LeaseSound(w.tables.sessions, w.tables.leases[k]);
        assert !Subsumes(w.tables.leases[k], request, decision, at);
      }
      forall a, b | a in v.tables.leases && b in v.tables.leases ensures Unique(v, a, b) {
        assert a in w.tables.leases && b in w.tables.leases ==> Unique(w, a, b);
      }
      forall k | k in v.tables.inflight ensures Coupled(v, k) { assert Coupled(w, k); }
    }
  }

  /** Steps that open or close no turn and add no lease; contexts may end, requests may leave. */
  lemma SafeQuiet(w: World, v: World)
    requires Safe(w)
    requires v.tables.sessions == w.tables.sessions && w.clock <= v.clock
    requires forall id | id in v.tables.inflight && id !in v.tables.ended ::
               id in w.tables.inflight && id !in w.tables.ended && id in w.requests && id in v.requests && v.requests[id] == w.requests[id]
    requires forall id | id in v.tables.leases :: id in w.tables.leases && v.tables.leases[id] == w.tables.leases[id]
    requires v.lock == w.lock || !v.lock.Deciding?
    ensures Safe(v)
  {
    forall id | id in v.tables.inflight ensures Coupled(v, id) { assert id in w.tables.inflight ==> Coupled(w, id); }
    forall a, b | a in v.tables.leases && b in v.tables.leases ensures Unique(v, a, b) { assert Unique(w, a, b); }
  }

  lemma SafeSubmit(w: World, tid: ThreadId, request: Request)
    requires Safe(w) && tid in w.threads && request.id !in w.issued && ContextActive(w.tables.sessions, request)
    requires forall id | id in w.tables.inflight :: id in w.requests && id in w.issued
    ensures Safe(Submit(w, tid, request))
  {
    var v := Submit(w, tid, request);
    forall k | k in v.tables.inflight ensures Coupled(v, k) { assert k in w.tables.inflight ==> Coupled(w, k); }
    forall a, b | a in v.tables.leases && b in v.tables.leases ensures Unique(v, a, b) { assert Unique(w, a, b); }
  }

  lemma SafeBegin(w: World, tid: ThreadId, at: Time, lease: Option<Id>, id: Option<Id>)
    requires Fits(w) && Safe(w) && BeginAllowed(w, tid, at, lease, id)
    ensures Safe(Begin(w, tid, at, lease, id))
  {
    InflightKnown(w);
    assert forall k | k in w.tables.inflight :: RequestFits(w, k);
    assert KeysFit(w);
    hide Fits, Safe, Matches, SomeMatch, RequestFits, Submit;
    var v := Begin(w, tid, at, lease, id);
    var found := ActiveSession(w.tables, w.threads[tid].process);
    if found.Some? && lease.None? && id.Some? {
      assert forall k | k in w.tables.inflight :: k in w.issued by { InflightIssued(w); }
      SafeSubmit(w, tid, NewRequest(w, w.threads[tid], w.tables.sessions[found.value], at, id.value));
    } else {
      SafeQuiet(w, v);
    }
  }

  lemma InflightIssued(w: World)
    requires forall k | k in w.tables.inflight :: RequestFits(w, k)
    ensures forall k | k in w.tables.inflight :: k in w.issued
  {
  }

  lemma SafeLock(w: World, lock: Lock)
    requires Safe(w) && (lock.Deciding? ==> lock.at <= w.clock)
    ensures Safe(w.(lock := lock))
  {
    var v := w.(lock := lock);
    forall id | id in v.tables.inflight ensures Coupled(v, id) { assert Coupled(w, id); }
    forall a, b | a in v.tables.leases && b in v.tables.leases ensures Unique(v, a, b) { assert Unique(w, a, b); }
  }

  lemma SafeAdmit(w: World, tid: ThreadId, request: Request, decision: Decision, leaseId: Option<Id>)
    requires Safe(w) && tid in w.threads && NewId(w, leaseId) && w.tables.inflight.Keys <= w.requests.Keys
    requires forall id | id in w.tables.leases :: id in w.issued
    requires decision.Valid() && decision.outcome == Approved && ContextActive(w.tables.sessions, request)
    ensures Safe(Admit(w, tid, request, decision, leaseId))
  {
    SafeEnsure(w, request, decision, w.clock, leaseId);
    EnsureEffect(w, request, decision, w.clock, leaseId);
    hide Safe, NeedsLease, ContextActive;
    SafeQuiet(Ensure(w, request, decision, w.clock, leaseId).0, Admit(w, tid, request, decision, leaseId));
  }

  lemma SafeFinish(w: World, tid: ThreadId, leaseId: Option<Id>)
    requires Fits(w) && Safe(w) && tid in w.threads && w.threads[tid].pc.Resuming? && NewId(w, leaseId)
    ensures Safe(Finish(w, tid, leaseId))
  {
    InflightKnown(w);
    assert forall id | id in w.tables.leases :: LeaseFits(w, id);
    hide Fits, Safe, Admit;
    var Resuming(request, decision) := w.threads[tid].pc;
    var v := w.(tables := w.tables.(inflight := w.tables.inflight - {request.id}));
    SafeQuiet(w, v);
    if decision.Valid() && decision.outcome == Approved && ContextActive(v.tables.sessions, request) {
      SafeAdmit(v, tid, request, decision, leaseId);
    } else {
      SafeQuiet(v, Finish(w, tid, leaseId));
    }
  }

  lemma SafeClose(w: World, leaseId: Option<Id>)
    requires Fits(w) && Safe(w) && w.lock.Deciding? && NewId(w, leaseId)
    ensures Safe(Close(w, leaseId))
  {
    var Deciding(at, target, outcome, scope, uid) := w.lock;
    var (pending, answer) := P.Review(w.pending, w.tables.ended, target, outcome, scope, uid);
    var v := w.(pending := pending, lock := Free);
    InflightKnown(w);
    LeasesKnown(w);
    LockInThePast(w);
    if answer.Success? {
      ReviewApprovesOnlyOpenTurns(w, target, outcome, scope, uid);
    }
    hide Fits, Safe, P.Review, Ensure, ContextActive;
    SafeQuiet(w, v);
    if answer.Success? {
      var u := Log(v, [Reviewed(answer.value.request, answer.value.decision)]);
      SafeQuiet(v, u);
      if Close(w, leaseId) != u {
        SafeEnsure(u, answer.value.request, answer.value.decision, at, leaseId);
      }
    }
  }

  lemma LeasesKnown(w: World)
    requires Fits(w)
    ensures forall id | id in w.tables.leases :: id in w.issued
  {
    assert forall id | id in w.tables.leases :: LeaseFits(w, id);
  }

  lemma LockInThePast(w: World)
    requires Safe(w)
    ensures w.lock.Deciding? ==> w.lock.at <= w.clock
  {
  }

  /** Steps that only move time, end processes and contexts, or take a lease away. */
  lemma ElsewhereIsQuiet(w: World, s: Step)
    requires Enabled(w, s)
    requires s.Tick? || s.Die? || s.Call? || s.Disconnect? || s.DeadlineFires? || s.Revoke?
    ensures var v := Apply(w, s);
            && v.tables.sessions == w.tables.sessions && w.clock <= v.clock && v.requests == w.requests && v.lock == w.lock
            && v.tables.inflight == w.tables.inflight && w.tables.ended.Keys <= v.tables.ended.Keys
            && forall id | id in v.tables.leases :: id in w.tables.leases && v.tables.leases[id] == w.tables.leases[id]
  {
    match s
    case Disconnect(_) =>
    case DeadlineFires(_) =>
    case Revoke(id) => RevokeIsQuiet(w, id);
    case _ =>
  }

  lemma RevokeIsQuiet(w: World, id: Id)
    ensures var v := RevokeLease(w, id);
            && v == w.(tables := w.tables.(leases := v.tables.leases), history := v.history)
            && forall id | id in v.tables.leases :: id in w.tables.leases && v.tables.leases[id] == w.tables.leases[id]
  {
  }

  lemma SafeElsewhere(w: World, s: Step)
    requires Fits(w) && Safe(w) && Enabled(w, s)
    requires s.Tick? || s.Die? || s.Call? || s.Disconnect? || s.DeadlineFires? || s.Revoke?
    ensures Safe(Apply(w, s))
  {
    InflightKnown(w);
    ElsewhereIsQuiet(w, s);
    hide Fits, Safe, Apply, Enabled;
    SafeQuiet(w, Apply(w, s));
  }

  lemma WaitersLeaveTables(w: World, s: Step)
    requires Enabled(w, s)
    requires s.ClosePending? || s.Register? || s.WakeDecided? || s.WakeEnded? || s.Collect? || s.Launch?
    ensures var v := Apply(w, s);
            v.tables == w.tables && v.requests == w.requests && v.clock == w.clock && (v.lock == w.lock || v.lock.Free?)
  {
    hide P.Prune, P.PruneItem;
    match s
    case Register(tid) => assert Apply(w, s) == Enqueue(w, tid);
    case Launch(tid) => assert Apply(w, s) == Start(w, tid);
    case _ =>
  }

  /** Steps that leave the broker's tables alone. */
  lemma SafeWaiters(w: World, s: Step)
    requires Fits(w) && Safe(w) && Enabled(w, s)
    requires s.ClosePending? || s.Register? || s.WakeDecided? || s.WakeEnded? || s.Collect? || s.Launch?
    ensures Safe(Apply(w, s))
  {
    InflightKnown(w);
    WaitersLeaveTables(w, s);
    hide Fits, Safe, Apply, Enabled;
    SafeQuiet(w, Apply(w, s));
  }

  lemma SafeRelease(w: World, tid: ThreadId)
    requires Fits(w) && Safe(w) && Enabled(w, ReleaseContext(tid))
    ensures Safe(Apply(w, ReleaseContext(tid)))
  {
    InflightKnown(w);
    hide Fits, Safe;
    SafeQuiet(w, Apply(w, ReleaseContext(tid)));
  }

  lemma SafeStep(w: World, s: Step)
    requires Fits(w) && Safe(w) && Enabled(w, s)
    ensures Safe(Apply(w, s))
  {
    hide Fits, Safe;
    match s
    case HandleLifecycle(at, process, event) =>
      FitsSweep(w, at);
      SafeSweep(w, at);
      SafeAdvance(SweepAt(w, at), at, process, event);
    case BeginRequest(tid, at, lease, id) =>
      FitsSweep(w, at);
      SafeSweep(w, at);
      SafeBegin(SweepAt(w, at), tid, at, lease, id);
    case OpenDecide(at, target, outcome, scope, uid) =>
      SafeSweep(w, at);
      SafeLock(SweepAt(w, at), Deciding(at, target, outcome, scope, uid));
    case OpenPending =>
      SafeSweep(w, w.clock);
      SafeLock(SweepAt(w, w.clock), Listing);
    case ListLeases => SafeSweep(w, w.clock);
    case FinishRequest(tid, leaseId) => SafeFinish(w, tid, leaseId);
    case CloseDecide(leaseId) => SafeClose(w, leaseId);
    case ReleaseContext(tid) => SafeRelease(w, tid);
    case _ =>
      if s.Tick? || s.Die? || s.Call? || s.Disconnect? || s.DeadlineFires? || s.Revoke? {
        SafeElsewhere(w, s);
      } else {
        SafeWaiters(w, s);
      }
  }

  lemma InflightKnown(w: World)
    requires Fits(w)
    ensures forall id | id in w.tables.inflight :: id in w.requests
  {
    assert forall id | id in w.tables.inflight :: id in w.requests;
  }
}

/**
 The transition system takes the steps of the code: the steps of Machine that stand for a critical
 section of the broker leave the tables and the queue exactly as the method of Broker for that section
 does, with the same result for the thread.  The steps inside the provider are defined by the very
 functions that specify the methods of ManualProvider (Enqueued, Settled, Collected, Prune).
 */
module BrokerSteps {
  import opened Wrappers
  import opened Approval
  import P = Provider
  import opened BrokerTables
  import opened Machine
  import opened Shape

  /** Where the outcome of the first critical section sends the thread. */
  function AfterBegin(lease: Option<Id>, request: Option<Request>, error: Option<ErrorCode>): Pc {
    if error.Some? then Failed(error.value) else if request.Some? then Submitting(request.value) else Admitted
  }

  lemma LifecycleIsTheCode(w: World, at: Time, process: Identity, event: LifecycleEvent)
    requires Enabled(w, HandleLifecycle(at, process, event))
    ensures Apply(w, HandleLifecycle(at, process, event)).tables == Lifecycle(w.tables, at, w.dead, process, event).0
  {
    hide Advance, Sweep;
  }

  lemma BeginIsTheCode(w: World, tid: ThreadId, at: Time, lease: Option<Id>, id: Option<Id>)
      returns (found: Option<Id>, request: Option<Request>, error: Option<ErrorCode>)
    requires Enabled(w, BeginRequest(tid, at, lease, id)) && Keyed(w.tables.sessions)
    ensures var (v, thread) := (Apply(w, BeginRequest(tid, at, lease, id)), w.threads[tid]);
            && BeginSection(Sweep(w.tables, at, w.dead), v.tables, w.cfg, thread.process, thread.agentUid, thread.command,
                            thread.disconnected, at, id, found, request, error)
            && v.threads[tid].pc == AfterBegin(found, request, error) && v.pending == w.pending
            && (found.Some? ==> found == lease)
  {
    var thread, u := w.threads[tid], SweepAt(w, at);
    found, request, error := None, None, None;
    hide Sweep, SomeMatch, Matches;
    var active := ActiveSession(u.tables, thread.process);
    if active.None? {
      error := Some(NoActiveTurn);
    } else if lease.Some? {
      MatchExists(u.tables, lease.value, u.tables.sessions[active.value], at);
      found := lease;
    } else if id.None? {
      error := Some(InternalError);
    } else {
      SubmitIsTheCode(u, tid, at, id.value, active.value);
      request := Some(NewRequest(u, thread, u.tables.sessions[active.value], at, id.value));
    }
  }

  lemma MatchExists(t: Tables, id: Id, session: Session, at: Time)
    requires id in t.leases && Matches(t.leases[id], session, at)
    ensures SomeMatch(t, session, at)
  {
  }

  lemma SubmitIsTheCode(u: World, tid: ThreadId, at: Time, id: Id, active: SessionKey)
    requires tid in u.threads && ActiveSession(u.tables, u.threads[tid].process) == Some(active)
    requires !SomeMatch(u.tables, u.tables.sessions[active], at)
    ensures var thread := u.threads[tid];
            var request := NewRequest(u, thread, u.tables.sessions[active], at, id);
            && BeginSection(u.tables, Submit(u, tid, request).tables, u.cfg, thread.process, thread.agentUid, thread.command,
                            thread.disconnected, at, Some(id), None, Some(request), None)
            && Submit(u, tid, request).threads[tid].pc == Submitting(request)
  {
    hide SomeMatch;
  }

  lemma EnsureIsTheCode(w: World, request: Request, decision: Decision, at: Time, drawn: Option<Id>)
    ensures var (v, error) := Ensure(w, request, decision, at, drawn);
            && (v.tables, error) == EnsureLease(w.tables, w.cfg, request, decision, at, drawn)
            && v.threads == w.threads && v.pending == w.pending && v.lock == w.lock
  {
    hide NewLease, NeedsLease;
  }

  lemma AdmitIsTheCode(w: World, tid: ThreadId, request: Request, decision: Decision, drawn: Option<Id>)
    requires tid in w.threads && RequestKey(request) in w.tables.sessions
    ensures var v := Admit(w, tid, request, decision, drawn);
            var (u, error) := EnsureLease(w.tables, w.cfg, request, decision, w.clock, drawn);
            && v.tables == u && v.pending == w.pending
            && tid in v.threads && v.threads[tid].pc == if error.Some? then Failed(error.value) else Admitted
  {
    EnsureIsTheCode(w, request, decision, w.clock, drawn);
    hide Ensure, EnsureLease;
  }

  lemma FinishIsTheCode(w: World, tid: ThreadId, drawn: Option<Id>)
    requires Enabled(w, FinishRequest(tid, drawn))
    ensures var v, pc := Apply(w, FinishRequest(tid, drawn)), w.threads[tid].pc;
            var (u, error) := FinishSection(w.tables, w.cfg, pc.request, pc.decision, w.clock, drawn);
            && v.tables == u && v.pending == w.pending
            && tid in v.threads && v.threads[tid].pc == if error.Some? then Failed(error.value) else Admitted
  {
    FinishIsFinishSection(w, tid, drawn);
    hide Finish, FinishSection;
  }

  lemma FinishIsFinishSection(w: World, tid: ThreadId, drawn: Option<Id>)
    requires tid in w.threads && w.threads[tid].pc.Resuming?
    ensures var v, pc := Finish(w, tid, drawn), w.threads[tid].pc;
            var (u, error) := FinishSection(w.tables, w.cfg, pc.request, pc.decision, w.clock, drawn);
            && v.tables == u && v.pending == w.pending
            && tid in v.threads && v.threads[tid].pc == if error.Some? then Failed(error.value) else Admitted
  {
    hide Admit, EnsureLease, ContextActive;
    var Resuming(request, decision) := w.threads[tid].pc;
    var u := w.(tables := w.tables.(inflight := w.tables.inflight - {request.id}));
    if ContextActive(u.tables.sessions, request) {
      ActiveHasSession(u.tables.sessions, request);
      AdmitIsTheCode(u, tid, request, decision, drawn);
    }
  }

  lemma ActiveHasSession(sessions: map<SessionKey, Session>, request: Request)
    requires ContextActive(sessions, request)
    ensures RequestKey(request) in sessions
  {
  }

  /** A review whose two steps follow each other is `Decide`. */
  lemma DecideIsTheCode(w: World, at: Time, target: Id, outcome: Outcome, scope: Scope, uid: nat, drawn: Option<Id>)
    requires Fits(w) && Enabled(w, OpenDecide(at, target, outcome, scope, uid)) && NewId(w, drawn)
    ensures var u := Apply(w, OpenDecide(at, target, outcome, scope, uid));
            && Enabled(u, CloseDecide(drawn))
            && var v := Apply(u, CloseDecide(drawn));
               var (t, pending, _) := AnswerSection(Sweep(w.tables, at, w.dead), w.pending, w.cfg, target, outcome, scope, uid, at, drawn);
               v.tables == t && v.pending == pending && v.lock.Free?
  {
    FitsStep(w, OpenDecide(at, target, outcome, scope, uid));
    var u := Apply(w, OpenDecide(at, target, outcome, scope, uid));
    assert u.tables == Sweep(w.tables, at, w.dead) && u.cfg == w.cfg;
    hide Fits, Sweep, AnswerSection;
    AnswerIsTheCode(u, drawn);
  }

  /** In general other steps come in between, which end contexts; the answer is still the code's, on the
      tables as they are then. */
  lemma AnswerIsTheCode(w: World, drawn: Option<Id>)
    requires Fits(w) && Enabled(w, CloseDecide(drawn))
    ensures var Deciding(at, target, outcome, scope, uid) := w.lock;
            var v := Apply(w, CloseDecide(drawn));
            var (u, pending, error) := AnswerSection(w.tables, w.pending, w.cfg, target, outcome, scope, uid, at, drawn);
            v.tables == u && v.pending == pending && v.lock.Free?
  {
    QueueIsWellFormed(w);
    assert Apply(w, CloseDecide(drawn)) == Close(w, drawn);
    hide Apply, Enabled, Fits;
    CloseIsAnswerSection(w, drawn);
  }

  lemma CloseIsAnswerSection(w: World, drawn: Option<Id>)
    requires w.lock.Deciding? && P.WellFormed(w.pending)
    ensures var Deciding(at, target, outcome, scope, uid) := w.lock;
            var v := Close(w, drawn);
            var (u, pending, error) := AnswerSection(w.tables, w.pending, w.cfg, target, outcome, scope, uid, at, drawn);
            v.tables == u && v.pending == pending && v.lock.Free?
  {
    var Deciding(at, target, outcome, scope, uid) := w.lock;
    CloseCases(w, drawn);
    hide Close, P.Review, P.Answer, P.Prune, P.WellFormed, Ensure, EnsureLease;
    var answer := P.Review(w.pending, w.tables.ended, target, outcome, scope, uid).1;
    if answer.Success? {
      EnsureIsTheCode(Answered(w), answer.value.request, answer.value.decision, at, drawn);
    }
  }

  lemma QueueIsWellFormed(w: World)
    requires Fits(w)
    ensures P.WellFormed(w.pending)
  {
    forall id | id in w.pending
      ensures w.pending[id].request.id == id && (w.pending[id].done <==> w.pending[id].decision.IsSet())
    {
      assert RequestFits(w, id);
    }
  }

  /** A listing whose two steps follow each other is `Pending`. */
  lemma ListingIsTheCode(w: World)
    requires Enabled(w, OpenPending)
    ensures var u := Apply(w, OpenPending);
            && Enabled(u, ClosePending)
            && var v := Apply(u, ClosePending);
               (v.tables, v.pending) == ListSection(w.tables, w.pending, w.clock, w.dead) && v.lock.Free?
  {
    hide P.Prune, Sweep;
  }

  lemma RevokeIsTheCode(w: World, id: Id)
    requires Enabled(w, Revoke(id))
    ensures Apply(w, Revoke(id)).tables == RevokeSection(w.tables, id).0
  {
    if id !in w.tables.leases {
      assert w.tables.leases - {id} == w.tables.leases;
    }
  }
}

/**
 How the tables, the threads and the provider's queue fit together in every reachable state, and
 the facts about single steps that follow: a decision is written once, and an entry leaves the
 queue only by the hand of its own waiter.
 */
module Shape {
  import opened Wrappers
  import opened Approval
  import P = Provider
  import opened BrokerTables
  import opened Machine

  /** The request a thread holds between its two critical sections at the broker. */
  function HeldRequest(pc: Pc): Option<Request> {
    match pc
    case Submitting(r) => Some(r)
    case Waiting(r) => Some(r)
    case Awake(r) => Some(r)
    case Returned(r, _) => Some(r)
    case Resuming(r, _) => Some(r)
    case _ => None
  }

  /** The request is for the command that the thread was called with, by the same agent. */
  predicate Asks(thread: Thread, r: Request) {
    r.process == thread.process && r.agentUid == thread.agentUid && r.command == thread.command
  }

  /** Where a request stands, seen from the tables: it is in flight while its thread holds it, and
      queued while its thread waits for it. */
  ghost predicate RequestFits(w: World, id: Id) {
    && id in w.requests && id in w.issued
    && var Origin(r, tid) := w.requests[id];
       && r.id == id && tid in w.threads && Asks(w.threads[tid], r)
       && var pc := w.threads[tid].pc;
          && (id in w.tables.inflight <==> HeldRequest(pc) == Some(r))
          && (id in w.tables.inflight ==> w.tables.inflight[id] == Inflight(r.process, r.sessionId, r.expiresAt))
          && (id in w.pending <==> pc == Waiting(r) || pc == Awake(r))
          && (id in w.pending ==> ItemFits(w.pending[id], r) && (pc.Awake? ==> w.pending[id].decision.IsSet()))
  }

  predicate ItemFits(item: P.Item, r: Request) {
    item.request == r && (item.done <==> item.decision.IsSet()) && (item.decision.IsSet() ==> item.decision.Valid())
  }

  ghost predicate ThreadFits(w: World, tid: ThreadId) {
    && tid in w.threads
    && var pc := w.threads[tid].pc;
       && (HeldRequest(pc).Some? ==>
             var r := HeldRequest(pc).value; r.id in w.requests && w.requests[r.id] == Origin(r, tid))
       && (pc.Returned? || pc.Resuming? ==> pc.decision.Valid())
  }

  ghost predicate LeaseFits(w: World, id: Id) {
    id in w.tables.leases && id in w.issued && w.tables.leases[id].id == id
  }

  ghost predicate KeysFit(w: World) {
    && w.cfg.Valid()
    && Keyed(w.tables.sessions)
    && w.tables.ended.Keys <= w.requests.Keys
    && w.tables.inflight.Keys <= w.requests.Keys
    && w.pending.Keys <= w.requests.Keys
  }

  ghost predicate Fits(w: World) {
    && KeysFit(w)
    && (forall id | id in w.requests :: RequestFits(w, id))
    && (forall id | id in w.tables.leases :: LeaseFits(w, id))
    && (forall tid | tid in w.threads :: ThreadFits(w, tid))
  }

  // The larger critical sections, by what they leave alone.

  /** What a sweep or a lifecycle event may do to the tables. */
  predicate TablesShrink(t: Tables, u: Tables) {
    && (Keyed(t.sessions) ==> Keyed(u.sessions)) && u.inflight == t.inflight
    && (forall id | id in u.leases :: id in t.leases && u.leases[id] == t.leases[id])
    && u.ended.Keys <= t.ended.Keys + t.inflight.Keys
  }

  lemma SweepEffect(t: Tables, at: Time, dead: set<Identity>)
    ensures TablesShrink(t, Sweep(t, at, dead))
  {
  }

  lemma AdvanceEffect(t: Tables, at: Time, process: Identity, event: LifecycleEvent)
    ensures TablesShrink(t, Advance(t, at, process, event).0)
  {
    var key := SessionKey(process, event.sessionId);
    if key in t.sessions && (event.kind.TurnStarted? || event.kind.TurnEnded?) {
      TurnEffect(t, key, at);
    }
  }

  lemma TurnEffect(t: Tables, key: SessionKey, at: Time)
    requires key in t.sessions
    ensures TablesShrink(t, CloseTurn(t, key, at)) && TablesShrink(t, OpenTurn(t, key, at))
  {
  }

  /** `v` differs from `w` only in the leases, the identifiers and the history. */
  predicate OnlyLeases(w: World, v: World) {
    && v == w.(issued := v.issued, history := v.history, tables := w.tables.(leases := v.tables.leases))
    && w.issued <= v.issued
    && forall id | id in v.tables.leases :: 
         (id in w.tables.leases && v.tables.leases[id] == w.tables.leases[id]) || (id in v.issued && v.tables.leases[id].id == id)
  }

  lemma EnsureEffect(w: World, request: Request, decision: Decision, at: Time, leaseId: Option<Id>)
    ensures var u := Ensure(w, request, decision, at, leaseId).0;
            OnlyLeases(w, u)
  {
  }

  lemma AdmitEffect(w: World, tid: ThreadId, request: Request, decision: Decision, leaseId: Option<Id>)
    requires tid in w.threads && RequestKey(request) in w.tables.sessions
    ensures var v := Admit(w, tid, request, decision, leaseId);
            && tid in v.threads && (v.threads[tid].pc.Admitted? || v.threads[tid].pc.Failed?)
            && OnlyLeases(Goto(w, tid, v.threads[tid].pc), v)
  {
    EnsureEffect(w, request, decision, w.clock, leaseId);
    hide Ensure;
  }

  lemma NoLeases(w: World)
    ensures OnlyLeases(w, w)
  {
  }

  lemma FinishEffect(w: World, tid: ThreadId, leaseId: Option<Id>)
    requires tid in w.threads && w.threads[tid].pc.Resuming?
    ensures var v, r := Finish(w, tid, leaseId), w.threads[tid].pc.request;
            && tid in v.threads && (v.threads[tid].pc.Admitted? || v.threads[tid].pc.Failed?)
            && OnlyLeases(Goto(w, tid, v.threads[tid].pc).(
                 tables := w.tables.(inflight := w.tables.inflight - {r.id})), v)
  {
    hide OnlyLeases, Admit;
    var Resuming(request, decision) := w.threads[tid].pc;
    var u := w.(tables := w.tables.(inflight := w.tables.inflight - {request.id}));
    NoLeases(Finish(w, tid, leaseId));
    if RequestKey(request) in u.tables.sessions {
      AdmitEffect(u, tid, request, decision, leaseId);
    }
  }

  lemma RequestFitsFinish(w: World, tid: ThreadId, leaseId: Option<Id>, id: Id)
    requires tid in w.threads && w.threads[tid].pc.Resuming? && ThreadFits(w, tid) && RequestFits(w, id)
    ensures RequestFits(Finish(w, tid, leaseId), id)
  {
    FinishEffect(w, tid, leaseId);
    var v := Finish(w, tid, leaseId);
    assert v.requests == w.requests && v.pending == w.pending;
  }

  lemma ThreadFitsFinish(w: World, tid: ThreadId, leaseId: Option<Id>, other: ThreadId)
    requires tid in w.threads && w.threads[tid].pc.Resuming? && ThreadFits(w, other)
    ensures ThreadFits(Finish(w, tid, leaseId), other)
  {
    FinishEffect(w, tid, leaseId);
  }

  lemma KeysFitFinish(w: World, tid: ThreadId, leaseId: Option<Id>)
    requires tid in w.threads && w.threads[tid].pc.Resuming? && KeysFit(w)
    ensures KeysFit(Finish(w, tid, leaseId))
  {
    FinishEffect(w, tid, leaseId);
  }

  lemma CloseEffect(w: World, leaseId: Option<Id>)
    requires w.lock.Deciding?
    ensures var Deciding(at, target, outcome, scope, uid) := w.lock;
            OnlyLeases(w.(lock := Free, pending := P.Review(w.pending, w.tables.ended, target, outcome, scope, uid).0), Close(w, leaseId))
  {
    var Deciding(at, target, outcome, scope, uid) := w.lock;
    var (pending, answer) := P.Review(w.pending, w.tables.ended, target, outcome, scope, uid);
    if answer.Success? {
      var u := Log(w.(pending := pending, lock := Free), [Reviewed(answer.value.request, answer.value.decision)]);
      EnsureEffect(u, answer.value.request, answer.value.decision, at, leaseId);
    }
  }

  /** The world after the provider's answer, before any lease. */
  function Answered(w: World): World
    requires w.lock.Deciding?
  {
    var Deciding(at, target, outcome, scope, uid) := w.lock;
    var (pending, answer) := P.Review(w.pending, w.tables.ended, target, outcome, scope, uid);
    var v := w.(pending := pending, lock := Free);
    if answer.Failure? then v else Log(v, [Reviewed(answer.value.request, answer.value.decision)])
  }

  /** The manual provider's answer always passes the check that `Decide` makes of it. */
  lemma CloseCases(w: World, leaseId: Option<Id>)
    requires w.lock.Deciding? && P.WellFormed(w.pending)
    ensures var Deciding(at, target, outcome, scope, uid) := w.lock;
            var (pending, answer) := P.Review(w.pending, w.tables.ended, target, outcome, scope, uid);
            && (answer.Success? ==> answer.value.decision.Valid() && answer.value.decision.outcome == outcome)
            && Close(w, leaseId) ==
               if answer.Success? && outcome == Approved
               then Ensure(Answered(w), answer.value.request, answer.value.decision, at, leaseId).0 else Answered(w)
  {
    var Deciding(at, target, outcome, scope, uid) := w.lock;
    if P.Review(w.pending, w.tables.ended, target, outcome, scope, uid).1.Success? {
      P.ReviewSucceeds(w.pending, w.tables.ended, target, outcome, scope, uid);
    }
    hide P.Review, P.Answer, P.Prune, Ensure;
  }

  lemma ReviewedItemFits(pending: P.Table, ended: P.Contexts, target: Id, outcome: Outcome, scope: Scope, uid: nat, id: Id, r: Request)
    requires id in pending && ItemFits(pending[id], r)
    ensures var after := P.Review(pending, ended, target, outcome, scope, uid).0;
            id in after && ItemFits(after[id], r) && (pending[id].decision.IsSet() ==> after[id] == pending[id])
  {
  }

  lemma RequestFitsClose(w: World, leaseId: Option<Id>, id: Id)
    requires w.lock.Deciding? && RequestFits(w, id)
    ensures RequestFits(Close(w, leaseId), id)
  {
    CloseEffect(w, leaseId);
    var Deciding(at, target, outcome, scope, uid) := w.lock;
    var v := Close(w, leaseId);
    assert v.pending == P.Review(w.pending, w.tables.ended, target, outcome, scope, uid).0;
    if id in w.pending {
      ReviewedItemFits(w.pending, w.tables.ended, target, outcome, scope, uid, id, w.requests[id].request);
    }
  }

  lemma RequestFitsSubmit(w: World, tid: ThreadId, request: Request, id: Id)
    requires tid in w.threads && w.threads[tid].pc.Called? && KeysFit(w)
    requires request.id !in w.issued && Asks(w.threads[tid], request)
    requires id in w.requests ==> RequestFits(w, id)
    requires id in Submit(w, tid, request).requests
    ensures RequestFits(Submit(w, tid, request), id)
  {
    if id == request.id {
      assert id !in w.requests;
      assert id !in w.pending;
    }
  }

  lemma FitsSubmit(w: World, tid: ThreadId, request: Request)
    requires Fits(w) && tid in w.threads && w.threads[tid].pc.Called?
    requires request.id !in w.issued && Asks(w.threads[tid], request)
    ensures Fits(Submit(w, tid, request))
  {
    var v := Submit(w, tid, request);
    forall id | id in v.requests ensures RequestFits(v, id) { RequestFitsSubmit(w, tid, request, id); }
    forall other | other in v.threads ensures ThreadFits(v, other) { assert other in w.threads; }
  }

  /** A thread that holds no request may move to a place where it holds none. */
  lemma FitsGoto(w: World, tid: ThreadId, pc: Pc)
    requires Fits(w) && tid in w.threads && HeldRequest(w.threads[tid].pc).None? && HeldRequest(pc).None?
    ensures Fits(Goto(w, tid, pc))
  {
    var v := Goto(w, tid, pc);
    forall id | id in v.requests ensures RequestFits(v, id) { assert RequestFits(w, id); }
  }

  /** What the first critical section does to the thread. */
  lemma BeginCases(w: World, tid: ThreadId, at: Time, lease: Option<Id>, id: Option<Id>)
    requires BeginAllowed(w, tid, at, lease, id)
    ensures var v := Begin(w, tid, at, lease, id);
            && tid in v.threads
            && var pc := v.threads[tid].pc;
               if pc.Submitting? then
                 v == Submit(w, tid, pc.request) && pc.request.id !in w.issued && Asks(w.threads[tid], pc.request)
               else v == Goto(w, tid, pc).(history := v.history) && HeldRequest(pc).None?
  {
    hide Matches, SomeMatch;
  }

  lemma FitsBegin(w: World, tid: ThreadId, at: Time, lease: Option<Id>, id: Option<Id>)
    requires Fits(w) && BeginAllowed(w, tid, at, lease, id)
    ensures Fits(Begin(w, tid, at, lease, id))
  {
    BeginCases(w, tid, at, lease, id);
    hide Fits, Begin, Submit, Asks, SomeMatch, Matches;
    var v := Begin(w, tid, at, lease, id);
    if v.threads[tid].pc.Submitting? {
      FitsSubmit(w, tid, v.threads[tid].pc.request);
    } else {
      FitsGoto(w, tid, v.threads[tid].pc);
      FitsHistory(Goto(w, tid, v.threads[tid].pc), v.history);
    }
  }

  lemma FitsSweep(w: World, at: Time)
    requires Fits(w)
    ensures Fits(SweepAt(w, at))
  {
    SweepEffect(w.tables, at, w.dead);
    FitsTables(w, SweepAt(w, at));
  }

  /** Steps that move no thread and no queue entry, and only shrink the tables. */
  lemma FitsTables(w: World, v: World)
    requires Fits(w) && v == w.(clock := v.clock, dead := v.dead, tables := v.tables, history := v.history, lock := v.lock)
    requires TablesShrink(w.tables, v.tables) || w.tables == v.tables.(ended := w.tables.ended)
    requires v.tables.ended.Keys <= w.requests.Keys
    ensures Fits(v)
  {
    forall id | id in v.requests ensures RequestFits(v, id) { assert RequestFits(w, id); }
    forall tid | tid in v.threads ensures ThreadFits(v, tid) { assert ThreadFits(w, tid); }
  }

  lemma FitsAdvance(w: World, at: Time, process: Identity, event: LifecycleEvent)
    requires Fits(w)
    ensures Fits(AdvanceWorld(w, at, process, event))
  {
    AdvanceEffect(w.tables, at, process, event);
    FitsTables(w, AdvanceWorld(w, at, process, event));
  }

  lemma FitsFinish(w: World, tid: ThreadId, leaseId: Option<Id>)
    requires Fits(w) && tid in w.threads && w.threads[tid].pc.Resuming?
    ensures Fits(Finish(w, tid, leaseId))
  {
    FinishEffect(w, tid, leaseId);
    KeysFitFinish(w, tid, leaseId);
    var v := Finish(w, tid, leaseId);
    forall id | id in v.requests ensures RequestFits(v, id) { RequestFitsFinish(w, tid, leaseId, id); }
    forall other | other in v.threads ensures ThreadFits(v, other) { ThreadFitsFinish(w, tid, leaseId, other); }
  }

  lemma FitsClose(w: World, leaseId: Option<Id>)
    requires Fits(w) && w.lock.Deciding?
    ensures Fits(Close(w, leaseId))
  {
    CloseEffect(w, leaseId);
    var v := Close(w, leaseId);
    forall id | id in v.requests ensures RequestFits(v, id) { RequestFitsClose(w, leaseId, id); }
    forall tid | tid in v.threads ensures ThreadFits(v, tid) { assert ThreadFits(w, tid); }
  }

  lemma FitsHistory(w: World, history: seq<Event>)
    requires Fits(w)
    ensures Fits(w.(history := history))
  {
    EndedFits(w);
    hide Fits;
    FitsTables(w, w.(history := history));
  }

  lemma FitsStart(w: World, tid: ThreadId)
    requires Fits(w) && tid in w.threads && w.threads[tid].pc.Admitted?
    ensures Fits(Start(w, tid))
  {
    hide Fits;
    var pc := Start(w, tid).threads[tid].pc;
    assert pc.Failed? || pc.Executed?;
    assert Start(w, tid) == Goto(w, tid, pc).(history := Start(w, tid).history);
    hide Start;
    FitsGoto(w, tid, pc);
    FitsHistory(Goto(w, tid, pc), Start(w, tid).history);
  }

  lemma HolderFits(w: World, tid: ThreadId)
    requires Fits(w) && tid in w.threads
    ensures ThreadFits(w, tid)
    ensures var held := HeldRequest(w.threads[tid].pc); held.Some? ==> RequestFits(w, held.value.id)
  {
  }

  /** A thread that holds a request moves on with it; only its own queue entry may change. */
  ghost predicate Moves(w: World, v: World, tid: ThreadId, r: Request) {
    && tid in w.threads && tid in v.threads && HeldRequest(w.threads[tid].pc) == Some(r)
    && v == Goto(w, tid, v.threads[tid].pc).(pending := v.pending, tables := w.tables.(ended := v.tables.ended))
    && HeldRequest(v.threads[tid].pc) == Some(r)
    && (forall id | id != r.id :: (id in v.pending <==> id in w.pending) && (id in w.pending ==> v.pending[id] == w.pending[id]))
    && v.tables.ended.Keys <= w.tables.ended.Keys + {r.id}
  }

  lemma RequestFitsMove(w: World, v: World, tid: ThreadId, r: Request, id: Id)
    requires Moves(w, v, tid, r) && RequestFits(w, id) && ThreadFits(w, tid) && id != r.id
    ensures RequestFits(v, id)
  {
    var Origin(q, other) := w.requests[id];
    if other == tid {
      assert HeldRequest(w.threads[tid].pc) != Some(q);
    } else {
      assert v.threads[other] == w.threads[other];
    }
    hide ItemFits;
  }

  lemma FitsMove(w: World, v: World, tid: ThreadId, r: Request)
    requires Fits(w) && Moves(w, v, tid, r) && ThreadFits(v, tid) && RequestFits(v, r.id)
    ensures Fits(v)
  {
    assert ThreadFits(w, tid);
    hide RequestFits;
    forall id | id in v.requests ensures RequestFits(v, id) {
      if id != r.id {
        assert RequestFits(w, id);
        RequestFitsMove(w, v, tid, r, id);
      }
    }
    forall other | other in v.threads ensures ThreadFits(v, other) { assert ThreadFits(w, other); }
  }

  lemma RegisterMoves(w: World, tid: ThreadId, r: Request)
    requires Enabled(w, Register(tid)) && w.threads[tid].pc == Submitting(r)
    ensures Moves(w, Apply(w, Register(tid)), tid, r)
  {
  }

  lemma RegisteredFits(w: World, tid: ThreadId, r: Request)
    requires tid in w.threads && w.threads[tid].pc == Submitting(r) && ThreadFits(w, tid) && RequestFits(w, r.id)
    ensures ThreadFits(Enqueue(w, tid), tid) && RequestFits(Enqueue(w, tid), r.id)
  {
  }

  lemma FitsRegister(w: World, s: Step)
    requires Fits(w) && Enabled(w, s) && s.Register?
    ensures Fits(Apply(w, s))
  {
    HolderFits(w, s.tid);
    var r := HeldRequest(w.threads[s.tid].pc).value;
    assert w.threads[s.tid].pc == Submitting(r) && Apply(w, s) == Enqueue(w, s.tid);
    RegisterMoves(w, s.tid, r);
    hide Fits, KeysFit, Moves, Apply, ThreadFits, RequestFits, Enqueue;
    RegisteredFits(w, s.tid, r);
    FitsMove(w, Enqueue(w, s.tid), s.tid, r);
  }

  lemma PrunedItemFits(item: P.Item, id: Id, ended: P.Contexts, r: Request)
    requires ItemFits(item, r)
    ensures var after := P.PruneItem(item, id, ended);
            && ItemFits(after, r) && (item.decision.IsSet() ==> after == item)
            && (id in ended ==> after.decision.IsSet())
  {
  }

  lemma WokenFits(w: World, v: World, tid: ThreadId, r: Request)
    requires tid in w.threads && w.threads[tid].pc == Waiting(r) && ThreadFits(w, tid) && RequestFits(w, r.id)
    requires v == Goto(w, tid, Awake(r)).(pending := v.pending) && r.id in v.pending
    requires ItemFits(v.pending[r.id], r) && v.pending[r.id].decision.IsSet()
    ensures ThreadFits(v, tid) && RequestFits(v, r.id)
  {
    hide ItemFits;
  }

  lemma WakeDoes(w: World, s: Step, r: Request)
    requires Enabled(w, s) && (s.WakeDecided? || s.WakeEnded?)
    requires w.threads[s.tid].pc == Waiting(r) && r.id in w.pending && ItemFits(w.pending[r.id], r)
    ensures var v := Apply(w, s);
            && Moves(w, v, s.tid, r) && v == Goto(w, s.tid, Awake(r)).(pending := v.pending)
            && r.id in v.pending && ItemFits(v.pending[r.id], r) && v.pending[r.id].decision.IsSet()
  {
    PrunedItemFits(w.pending[r.id], r.id, w.tables.ended, r);
    hide P.PruneItem;
  }

  lemma FitsWake(w: World, s: Step)
    requires Fits(w) && Enabled(w, s) && (s.WakeDecided? || s.WakeEnded?)
    ensures Fits(Apply(w, s))
  {
    HolderFits(w, s.tid);
    var r := HeldRequest(w.threads[s.tid].pc).value;
    assert r.id in w.pending && ItemFits(w.pending[r.id], r);
    hide Fits, P.PruneItem, KeysFit, Moves, Apply, ThreadFits, RequestFits, ItemFits;
    WakeDoes(w, s, r);
    WokenFits(w, Apply(w, s), s.tid, r);
    FitsMove(w, Apply(w, s), s.tid, r);
  }

  lemma LeaveMoves(w: World, s: Step, r: Request)
    requires Enabled(w, s) && (s.Collect? || s.ReleaseContext?)
    requires HeldRequest(w.threads[s.tid].pc) == Some(r)
    ensures Moves(w, Apply(w, s), s.tid, r)
  {
  }

  lemma LeftFits(w: World, s: Step, r: Request)
    requires Enabled(w, s) && (s.Collect? || s.ReleaseContext?)
    requires HeldRequest(w.threads[s.tid].pc) == Some(r) && ThreadFits(w, s.tid) && RequestFits(w, r.id)
    ensures ThreadFits(Apply(w, s), s.tid) && RequestFits(Apply(w, s), r.id)
  {
  }

  lemma FitsLeave(w: World, s: Step)
    requires Fits(w) && Enabled(w, s) && (s.Collect? || s.ReleaseContext?)
    ensures Fits(Apply(w, s))
  {
    HolderFits(w, s.tid);
    var r := HeldRequest(w.threads[s.tid].pc).value;
    hide Fits, KeysFit, Moves, Apply, ThreadFits, RequestFits;
    LeaveMoves(w, s, r);
    LeftFits(w, s, r);
    FitsMove(w, Apply(w, s), s.tid, r);
  }

  lemma FitsDisconnect(w: World, tid: ThreadId)
    requires Fits(w) && tid in w.threads
    ensures Fits(Apply(w, Disconnect(tid)))
  {
    var v := Apply(w, Disconnect(tid));
    assert ThreadFits(w, tid);
    forall id | id in v.requests ensures RequestFits(v, id) { assert RequestFits(w, id); }
    forall other | other in v.threads ensures ThreadFits(v, other) { assert ThreadFits(w, other); }
  }

  lemma FitsCall(w: World, tid: ThreadId, thread: Thread)
    requires Fits(w) && tid !in w.threads && thread.pc.Called?
    ensures Fits(w.(threads := w.threads[tid := thread]))
  {
    var v := w.(threads := w.threads[tid := thread]);
    forall id | id in v.requests ensures RequestFits(v, id) { assert RequestFits(w, id); }
    forall other | other in v.threads ensures ThreadFits(v, other) { assert other in w.threads ==> ThreadFits(w, other); }
  }

  lemma FitsPrune(w: World)
    requires Fits(w)
    ensures Fits(w.(pending := P.Prune(w.pending, w.tables.ended), lock := Free))
  {
    var v := w.(pending := P.Prune(w.pending, w.tables.ended), lock := Free);
    hide P.PruneItem, ItemFits;
    forall id | id in v.requests ensures RequestFits(v, id) {
      assert RequestFits(w, id);
      if id in w.pending {
        PrunedItemFits(w.pending[id], id, w.tables.ended, w.requests[id].request);
      }
    }
    forall tid | tid in v.threads ensures ThreadFits(v, tid) { assert ThreadFits(w, tid); }
  }

  lemma EndedFits(w: World)
    requires Fits(w)
    ensures w.tables.ended.Keys <= w.requests.Keys && w.tables.inflight.Keys <= w.requests.Keys
  {
  }

  lemma FitsSmall(w: World, s: Step)
    requires Fits(w) && Enabled(w, s)
    requires s.Tick? || s.Die? || s.DeadlineFires? || s.Revoke? || s.OpenDecide? || s.OpenPending?
    ensures Fits(Apply(w, s))
  {
    EndedFits(w);
    hide Fits;
    if s.OpenDecide? {
      SweepEffect(w.tables, s.at, w.dead);
    } else {
      SweepEffect(w.tables, w.clock, w.dead);
    }
    hide Sweep;
    FitsTables(w, Apply(w, s));
  }

  lemma FitsStep(w: World, s: Step)
    requires Fits(w) && Enabled(w, s)
    ensures Fits(Apply(w, s))
  {
    hide Fits, Begin, Finish, Close, Start, Enqueue, AdvanceWorld, P.Prune, P.PruneItem;
    match s
    case Call(tid, process, agentUid, command) => FitsCall(w, tid, Apply(w, s).threads[tid]);
    case Disconnect(tid) => FitsDisconnect(w, tid);
    case HandleLifecycle(at, process, event) =>
      FitsSweep(w, at);
      FitsAdvance(SweepAt(w, at), at, process, event);
    case BeginRequest(tid, at, lease, id) =>
      FitsSweep(w, at);
      FitsBegin(SweepAt(w, at), tid, at, lease, id);
    case FinishRequest(tid, leaseId) => FitsFinish(w, tid, leaseId);
    case ListLeases => FitsSweep(w, w.clock);
    case CloseDecide(leaseId) => FitsClose(w, leaseId);
    case ClosePending => FitsPrune(w);
    case Launch(tid) => FitsStart(w, tid);
    case Register(_) => FitsRegister(w, s);
    case WakeDecided(_) => FitsWake(w, s);
    case WakeEnded(_) => FitsWake(w, s);
    case Collect(_) => FitsLeave(w, s);
    case ReleaseContext(_) => FitsLeave(w, s);
    case _ => FitsSmall(w, s);
  }
}

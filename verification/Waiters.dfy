/**
 The first decision wins and no waiter is lost.
 */
module Waiters {
  import opened Wrappers
  import opened Approval
  import P = Provider
  import opened BrokerTables
  import opened Machine
  import opened Shape

  /** One step never rewrites a decision; the channel of an entry is closed exactly when its decision
      is there; and an entry leaves the queue only when its own waiter collects its decision. */
  ghost predicate FirstDecisionWins(w: World, s: Step, v: World, id: Id)
    requires id in w.pending && id in w.requests
  {
    var before, Origin(request, tid) := w.pending[id], w.requests[id];
    if id in v.pending then
      && (before.decision.IsSet() ==> v.pending[id] == before)
      && (v.pending[id].done <==> v.pending[id].decision.IsSet())
    else
      && s == Collect(tid) && before.decision.IsSet()
      && tid in v.threads && v.threads[tid].pc == Returned(request, before.decision)
  }

  lemma QueueElsewhere(w: World, s: Step)
    requires Enabled(w, s) && !(s.CloseDecide? || s.ClosePending? || s.Register? || s.WakeEnded? || s.Collect?)
    ensures Apply(w, s).pending == w.pending
  {
    hide Finish, Sweep, Lifecycle, Advance;
    if s.FinishRequest? {
      FinishEffect(w, s.tid, s.leaseId);
    }
  }

  lemma CloseKeepsDecisions(w: World, leaseId: Option<Id>, id: Id)
    requires w.lock.Deciding? && id in w.pending && RequestFits(w, id)
    ensures FirstDecisionWins(w, CloseDecide(leaseId), Close(w, leaseId), id)
  {
    CloseEffect(w, leaseId);
    var Deciding(at, target, outcome, scope, uid) := w.lock;
    ReviewedItemFits(w.pending, w.tables.ended, target, outcome, scope, uid, id, w.requests[id].request);
  }

  lemma WaiterKeepsDecisions(w: World, s: Step, id: Id)
    requires Enabled(w, s) && (s.Register? || s.WakeEnded? || s.Collect? || s.ClosePending?) && id in w.pending && RequestFits(w, id)
    requires !s.ClosePending? ==> ThreadFits(w, s.tid)
    ensures FirstDecisionWins(w, s, Apply(w, s), id)
  {
  }

  lemma DecisionsAreFinal(w: World, s: Step, id: Id)
    requires Fits(w) && Enabled(w, s) && id in w.pending
    ensures id in w.requests && FirstDecisionWins(w, s, Apply(w, s), id)
  {
    EntryFits(w, id);
    if s.Register? || s.WakeEnded? || s.Collect? {
      StepHolderFits(w, s);
      hide *;
      WaiterKeepsDecisions(w, s, id);
    } else if s.ClosePending? {
      hide *;
      WaiterKeepsDecisions(w, s, id);
    } else if s.CloseDecide? {
      CloseApplies(w, s);
      hide *;
      CloseKeepsDecisions(w, s.leaseId, id);
    } else {
      hide Fits, Apply, Enabled, RequestFits;
      QueueElsewhere(w, s);
    }
  }

  lemma StepHolderFits(w: World, s: Step)
    requires Fits(w) && Enabled(w, s) && (s.Register? || s.WakeEnded? || s.Collect?)
    ensures ThreadFits(w, s.tid)
  {
    HolderFits(w, s.tid);
  }

  lemma CloseApplies(w: World, s: Step)
    requires Enabled(w, s) && s.CloseDecide?
    ensures w.lock.Deciding? && s == CloseDecide(s.leaseId) && Apply(w, s) == Close(w, s.leaseId)
  {
  }

  lemma EntryFits(w: World, id: Id)
    requires Fits(w) && id in w.pending
    ensures id in w.requests && RequestFits(w, id)
  {
  }

  /** A stretch of a run that may start in any state. */
  ghost predicate IsPath(path: seq<World>, steps: seq<Step>) {
    && |path| == |steps| + 1
    && forall i | 0 <= i < |steps| :: Enabled(path[i], steps[i]) && path[i + 1] == Apply(path[i], steps[i])
  }

  /** The end of a waiter whose request was decided, or whose context has ended: a decision stands; without
      one, a deadline makes it "expired" and anything else "cancelled"; and an approval whose turn is gone is
      "cancelled" too. */
  ghost predicate Served(w: World, request: Request, pc: Pc)
    requires request.id in w.pending
  {
    var outcome := w.pending[request.id].decision.outcome;
    if outcome == Undecided then
      && request.id in w.tables.ended
      && pc == Failed(RequestEnded(match w.tables.ended[request.id] case DeadlineExceeded => Expired case Canceled => Cancelled))
    else if outcome != Approved then pc == Failed(RequestEnded(outcome))
    else if ContextActive(w.tables.sessions, request) then pc == Admitted
    else pc == Failed(RequestEnded(Cancelled))
  }

  /** What the last critical section makes of a valid decision, if there is an identifier for its lease. */
  ghost function FinalPc(sessions: map<SessionKey, Session>, request: Request, decision: Decision): Pc {
    if decision.outcome != Approved then Failed(RequestEnded(decision.outcome))
    else if ContextActive(sessions, request) then Admitted
    else Failed(RequestEnded(Cancelled))
  }

  /** Closes the review or the listing that holds the broker's lock, without a new lease. */
  function Unlock(lock: Lock): seq<Step> {
    match lock
    case Deciding(_, _, _, _, _) => [CloseDecide(None)]
    case Listing => [ClosePending]
    case Free => []
  }

  lemma UnlockEffect(w: World)
    requires !w.lock.Free?
    ensures var v := Apply(w, Unlock(w.lock)[0]);
            && Enabled(w, Unlock(w.lock)[0])
            && v.lock.Free? && v.threads == w.threads && v.issued == w.issued && v.tables == w.tables
  {
    if w.lock.Deciding? {
      var Deciding(at, target, outcome, scope, uid) := w.lock;
      hide P.Review;
    }
  }

  lemma FinishServes(w: World, tid: ThreadId, spare: Id)
    requires tid in w.threads && w.threads[tid].pc.Resuming? && w.threads[tid].pc.decision.Valid()
    ensures var Resuming(r, d) := w.threads[tid].pc;
            && tid in Finish(w, tid, Some(spare)).threads
            && Finish(w, tid, Some(spare)).threads[tid].pc == FinalPc(w.tables.sessions, r, d)
  {
  }

  function Wake(w: World, tid: ThreadId, request: Request): Step {
    if request.id in w.pending && w.pending[request.id].done then WakeDecided(tid) else WakeEnded(tid)
  }

  /** What the queue holds for a waiter that can wake, once it has woken. */
  ghost predicate Woken(w: World, w1: World, tid: ThreadId, request: Request)
    requires tid in w.threads && request.id in w.pending
  {
    && w1 == Goto(w, tid, Awake(request)).(pending := w1.pending)
    && request.id in w1.pending && w1.pending[request.id].decision.Valid()
    && if w.pending[request.id].decision.IsSet() then w1.pending[request.id].decision == w.pending[request.id].decision
       else request.id in w.tables.ended && w1.pending[request.id].decision == P.EndDecision(w.tables.ended[request.id])
  }

  lemma WakeEffect(w: World, tid: ThreadId, request: Request)
    requires tid in w.threads && w.threads[tid].pc == Waiting(request) && ThreadFits(w, tid) && RequestFits(w, request.id)
    requires request.id in w.tables.ended || w.pending[request.id].done
    ensures Enabled(w, Wake(w, tid, request)) && Woken(w, Apply(w, Wake(w, tid, request)), tid, request)
  {
    var item := w.pending[request.id];
    assert ItemFits(item, request);
    if item.done {
      assert Apply(w, WakeDecided(tid)) == Goto(w, tid, Awake(request)).(pending := w.pending);
    } else {
      assert P.PruneItem(item, request.id, w.tables.ended) == P.Finish(item, P.EndDecision(w.tables.ended[request.id]));
    }
  }

  /** A waiter that can wake takes its entry out of the queue and releases its context. */
  lemma WaiterResumes(w: World, tid: ThreadId, request: Request) returns (w1: World, w2: World, w3: World)
    requires tid in w.threads && w.threads[tid].pc == Waiting(request) && ThreadFits(w, tid) && RequestFits(w, request.id)
    requires request.id in w.tables.ended || w.pending[request.id].done
    ensures Enabled(w, Wake(w, tid, request)) && w1 == Apply(w, Wake(w, tid, request))
    ensures Enabled(w1, Collect(tid)) && w2 == Apply(w1, Collect(tid))
    ensures Enabled(w2, ReleaseContext(tid)) && w3 == Apply(w2, ReleaseContext(tid))
    ensures w3.lock == w.lock && w3.issued == w.issued && w3.tables.sessions == w.tables.sessions && tid in w3.threads
    ensures w3.threads[tid].pc.Resuming? && w3.threads[tid].pc.request == request && w3.threads[tid].pc.decision.Valid()
    ensures if w.pending[request.id].decision.IsSet() then w3.threads[tid].pc.decision == w.pending[request.id].decision
            else request.id in w.tables.ended && w3.threads[tid].pc.decision == P.EndDecision(w.tables.ended[request.id])
  {
    WakeEffect(w, tid, request);
    w1 := Apply(w, Wake(w, tid, request));
    hide Wake, P.PruneItem, ThreadFits, RequestFits;
    w2, w3 := WokenResumes(w1, tid, request);
  }

  lemma WokenResumes(w1: World, tid: ThreadId, request: Request) returns (w2: World, w3: World)
    requires tid in w1.threads && w1.threads[tid].pc == Awake(request) && request.id in w1.pending
    ensures Enabled(w1, Collect(tid)) && w2 == Apply(w1, Collect(tid))
    ensures Enabled(w2, ReleaseContext(tid)) && w3 == Apply(w2, ReleaseContext(tid))
    ensures w3.lock == w1.lock && w3.issued == w1.issued && w3.tables.sessions == w1.tables.sessions && tid in w3.threads
    ensures w3.threads[tid].pc == Resuming(request, w1.pending[request.id].decision)
  {
    w2 := Apply(w1, Collect(tid));
    w3 := Apply(w2, ReleaseContext(tid));
  }

  /** A thread about to enter its last critical section gets there, over a held lock if need be. */
  lemma ResumerFinishes(w: World, tid: ThreadId, spare: Id) returns (path: seq<World>, steps: seq<Step>)
    requires tid in w.threads && w.threads[tid].pc.Resuming? && w.threads[tid].pc.decision.Valid() && spare !in w.issued
    ensures |path| == |steps| + 1 && IsPath(path, steps) && path[0] == w && steps == Unlock(w.lock) + [FinishRequest(tid, Some(spare))]
    ensures tid in path[|steps|].threads
    ensures var Resuming(r, d) := w.threads[tid].pc;
            path[|steps|].threads[tid].pc == FinalPc(w.tables.sessions, r, d)
  {
    hide Finish, Close, FinalPc, Begin, Start, Enqueue, AdvanceWorld, Sweep;
    if w.lock.Free? {
      FinishServes(w, tid, spare);
      path, steps := [w, Finish(w, tid, Some(spare))], [FinishRequest(tid, Some(spare))];
    } else {
      UnlockEffect(w);
      var v := Apply(w, Unlock(w.lock)[0]);
      FinishServes(v, tid, spare);
      path, steps := [w, v, Finish(v, tid, Some(spare))], Unlock(w.lock) + [FinishRequest(tid, Some(spare))];
    }
  }

  lemma Prepend(head: seq<World>, first: seq<Step>, path: seq<World>, steps: seq<Step>)
    requires |head| == |first| && IsPath(path, steps)
    requires forall i | 0 <= i < |head| :: Enabled(head[i], first[i]) && (head + path)[i + 1] == Apply(head[i], first[i])
    ensures IsPath(head + path, first + steps)
  {
    var p, t := head + path, first + steps;
    forall i | 0 <= i < |t| ensures Enabled(p[i], t[i]) && p[i + 1] == Apply(p[i], t[i]) {
      if i >= |head| {
        var j := i - |head|;
        assert p[i] == path[j] && t[i] == steps[j] && p[i + 1] == path[j + 1];
        assert Enabled(path[j], steps[j]) && path[j + 1] == Apply(path[j], steps[j]);
      } else {
        assert p[i] == head[i] && t[i] == first[i];
      }
    }
  }

  /** From every reachable state, a waiter that was decided or whose context has ended gets its answer
      by its own steps, once whoever holds the broker's lock in the middle of a review or a listing
      takes the one step that is always open to it.  It is served the decision that stood first. */
  lemma NoWaiterIsLost(w: World, tid: ThreadId, spare: Id) returns (path: seq<World>, steps: seq<Step>)
    requires Fits(w) && tid in w.threads && w.threads[tid].pc.Waiting? && spare !in w.issued
    requires var id := w.threads[tid].pc.request.id; id in w.tables.ended || (id in w.pending && w.pending[id].done)
    ensures |path| == |steps| + 1 && IsPath(path, steps) && path[0] == w
    ensures steps == [Wake(w, tid, w.threads[tid].pc.request), Collect(tid), ReleaseContext(tid)]
                     + Unlock(w.lock) + [FinishRequest(tid, Some(spare))]
    ensures var request, last := w.threads[tid].pc.request, path[|steps|];
            request.id in w.pending && tid in last.threads && Served(w, request, last.threads[tid].pc)
  {
    hide *;
    var request := w.threads[tid].pc.request;
    WaiterIsQueued(w, tid, request);
    var w1, w2, w3 := WaiterResumes(w, tid, request);
    var rest, last := ResumerFinishes(w3, tid, spare);
    var head, first := [w, w1, w2], [Wake(w, tid, request), Collect(tid), ReleaseContext(tid)];
    Prepend(head, first, rest, last);
    path, steps := head + rest, first + last;
    assert steps == first + Unlock(w.lock) + [FinishRequest(tid, Some(spare))];
    assert path[|steps|] == rest[|last|];
    ServedFrom(w, request, w3.threads[tid].pc.decision, w3.tables.sessions, path[|steps|].threads[tid].pc);
  }

  lemma WaiterIsQueued(w: World, tid: ThreadId, request: Request)
    requires Fits(w) && tid in w.threads && w.threads[tid].pc == Waiting(request)
    ensures request.id in w.pending && ThreadFits(w, tid) && RequestFits(w, request.id)
  {
    HolderFits(w, tid);
  }

  lemma ServedFrom(w: World, request: Request, decision: Decision, sessions: map<SessionKey, Session>, pc: Pc)
    requires request.id in w.pending && sessions == w.tables.sessions
    requires pc == FinalPc(sessions, request, decision)
    requires if w.pending[request.id].decision.IsSet() then decision == w.pending[request.id].decision
             else request.id in w.tables.ended && decision == P.EndDecision(w.tables.ended[request.id])
    ensures Served(w, request, pc)
  {
  }

  /** A waiter that sees its context end decides its own undecided entry by the kind of that ending, and
      touches no other. */
  lemma WakeDecides(w: World, tid: ThreadId)
    requires Enabled(w, WakeEnded(tid))
    ensures var (v, id) := (Apply(w, WakeEnded(tid)), w.threads[tid].pc.request.id);
            && v.pending.Keys == w.pending.Keys && forall k | k in w.pending && k != id :: v.pending[k] == w.pending[k]
    ensures var (v, id) := (Apply(w, WakeEnded(tid)), w.threads[tid].pc.request.id);
            if w.pending[id].decision.outcome != Undecided then v.pending[id] == w.pending[id]
            else v.pending[id].done
                 && v.pending[id].decision.outcome == match w.tables.ended[id] case DeadlineExceeded => Expired case Canceled => Cancelled
  {
  }

  /** A request is queued undecided under its identifier, which in every reachable state is not in the queue;
      if it were, the request would be "cancelled" and the queue left alone. */
  lemma RegisterQueues(w: World, tid: ThreadId)
    requires Enabled(w, Register(tid))
    ensures var (v, r) := (Apply(w, Register(tid)), w.threads[tid].pc.request);
            if r.id in w.pending then
              && v.pending == w.pending && v.threads[tid].pc.Returned? && v.threads[tid].pc.decision.outcome == Cancelled
            else
              v.pending == w.pending[r.id := P.Item(r, UNSET, false)] && v.threads[tid].pc == Waiting(r)
    ensures Fits(w) ==> w.threads[tid].pc.request.id !in w.pending
  {
    if Fits(w) {
      HolderFits(w, tid);
    }
    hide Fits;
  }

  /** A request that nobody has answered when its deadline fires ends as "expired", one whose client
      disconnects as "cancelled", by the waiter's own steps. */
  lemma UnansweredEnds(w: World, s: Step, tid: ThreadId, spare: Id) returns (path: seq<World>, steps: seq<Step>)
    requires Fits(w) && Enabled(w, s) && tid in w.threads && w.threads[tid].pc.Waiting? && spare !in w.issued
    requires var id := w.threads[tid].pc.request.id;
             && (s == DeadlineFires(id) || s == Disconnect(tid))
             && id in w.pending && w.pending[id].decision.outcome == Undecided && id !in w.tables.ended
    ensures |path| == |steps| + 1 && IsPath(path, steps) && path[0] == Apply(w, s) && |steps| <= 5
    ensures tid in path[|steps|].threads
    ensures path[|steps|].threads[tid].pc == Failed(RequestEnded(if s.DeadlineFires? then Expired else Cancelled))
  {
    hide *;
    FitsStep(w, s);
    ContextEnds(w, s, tid);
    var v := Apply(w, s);
    path, steps := NoWaiterIsLost(v, tid, spare);
    UnlockIsShort(v.lock);
    ServedByEnd(v, v.threads[tid].pc.request, path[|steps|].threads[tid].pc);
  }

  lemma UnlockIsShort(lock: Lock)
    ensures |Unlock(lock)| <= 1
  {
  }

  lemma ServedByEnd(w: World, request: Request, pc: Pc)
    requires request.id in w.pending && w.pending[request.id].decision.outcome == Undecided && Served(w, request, pc)
    ensures request.id in w.tables.ended
    ensures pc == Failed(RequestEnded(match w.tables.ended[request.id] case DeadlineExceeded => Expired case Canceled => Cancelled))
  {
  }

  lemma ContextEnds(w: World, s: Step, tid: ThreadId)
    requires Enabled(w, s) && tid in w.threads && w.threads[tid].pc.Waiting?
    requires var id := w.threads[tid].pc.request.id; (s == DeadlineFires(id) || s == Disconnect(tid)) && id !in w.tables.ended
    ensures var (v, id) := (Apply(w, s), w.threads[tid].pc.request.id);
            && v.pending == w.pending && v.issued == w.issued && tid in v.threads && v.threads[tid].pc == w.threads[tid].pc
            && id in v.tables.ended && v.tables.ended[id] == if s.DeadlineFires? then P.DeadlineExceeded else P.Canceled
  {
  }
}

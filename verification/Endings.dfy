/**
 The end of a turn is for good: what the end of a turn or of its session, or a second start of a turn,
 has cancelled is approved by no review and passes no last critical section in the rest of the run.
 */
module Endings {
  import opened Wrappers
  import opened Approval
  import P = Provider
  import opened BrokerTables
  import opened Sections
  import opened Machine
  import opened Shape
  import opened Turns

  /** A valid lifecycle event that closes whatever turn of the session is open. */
  predicate Closes(w: World, s: Step, key: SessionKey) {
    && s.HandleLifecycle? && s.event.Valid() && SessionKey(s.process, s.event.sessionId) == key
    && Closing(w.tables, w.dead, s.process, s.event)
  }

  lemma LifecycleApplies(w: World, s: Step)
    requires Enabled(w, s) && s.HandleLifecycle?
    ensures Apply(w, s).tables == Lifecycle(w.tables, s.at, w.dead, s.process, s.event).0 && Apply(w, s).dead == w.dead
  {
    hide Advance, Sweep;
  }

  /** After the end of a session it is gone; after the end of a turn, or a turn start while one was open, no
      turn is open. */
  lemma EndingsClose(w: World, s: Step)
    requires Enabled(w, s) && s.HandleLifecycle? && s.event.Valid()
    ensures var (v, key) := (Apply(w, s).tables, SessionKey(s.process, s.event.sessionId));
            && (s.event.kind.SessionEnded? ==> key !in v.sessions)
            && (s.event.kind.TurnEnded? && key in v.sessions ==> !v.sessions[key].active)
            && (s.event.kind.TurnStarted? && key in w.tables.sessions && w.tables.sessions[key].active && key in v.sessions ==>
                  !v.sessions[key].active)
  {
    LifecycleApplies(w, s);
    hide Apply, Enabled;
    LifecycleSessions(w.tables, s.at, w.dead, s.process, s.event, SessionKey(s.process, s.event.sessionId));
    hide Lifecycle;
  }

  /** So every turn up to the one that was current is over. */
  lemma ClosedIsOver(w: World, s: Step, key: SessionKey, n: nat)
    requires Enabled(w, s) && Closes(w, s, key) && key in w.tables.sessions && n <= w.tables.sessions[key].turn
    requires key in Apply(w, s).tables.sessions
    ensures Over(Apply(w, s), key, n)
  {
    LifecycleApplies(w, s);
    hide Apply, Enabled;
    LifecycleSessions(w.tables, s.at, w.dead, s.process, s.event, key);
    hide Lifecycle;
  }

  /** In the step itself every in-flight request of the session is cancelled. */
  lemma ClosedIsCancelled(w: World, s: Step, key: SessionKey, id: Id)
    requires Enabled(w, s) && Closes(w, s, key) && id in w.tables.inflight && w.tables.inflight[id].Key() == key
    ensures id in Apply(w, s).tables.ended
  {
    LifecycleApplies(w, s);
    hide Apply, Enabled;
    LifecycleCancels(w.tables, s.at, w.dead, s.process, s.event, id);
    hide Lifecycle;
  }

  // A context that has ended is never live again.

  lemma AdvanceKeepsEnded(w: World, at: Time, process: Identity, event: LifecycleEvent, id: Id)
    requires id in w.tables.ended
    ensures var v := AdvanceWorld(w, at, process, event); id in v.tables.ended && v.tables.ended[id] == w.tables.ended[id]
  {
  }

  lemma SweepKeepsEnded(w: World, at: Time, id: Id)
    requires id in w.tables.ended
    ensures var v := SweepAt(w, at); id in v.tables.ended && v.tables.ended[id] == w.tables.ended[id]
  {
  }

  lemma SubmitKeepsEnded(w: World, tid: ThreadId, request: Request, id: Id)
    requires tid in w.threads && id in w.tables.ended
    ensures var v := Submit(w, tid, request); id in v.tables.ended && v.tables.ended[id] == w.tables.ended[id]
  {
  }

  lemma BeginKeepsEnded(w: World, tid: ThreadId, at: Time, lease: Option<Id>, drawn: Option<Id>, id: Id)
    requires BeginAllowed(w, tid, at, lease, drawn) && id in w.tables.ended
    ensures var v := Begin(w, tid, at, lease, drawn); id in v.tables.ended && v.tables.ended[id] == w.tables.ended[id]
  {
    BeginCases(w, tid, at, lease, drawn);
    hide Begin, Submit, BeginAllowed;
    var v := Begin(w, tid, at, lease, drawn);
    if v.threads[tid].pc.Submitting? {
      SubmitKeepsEnded(w, tid, v.threads[tid].pc.request, id);
    }
  }

  lemma RevokeKeepsEnded(w: World, lease: Id)
    ensures RevokeLease(w, lease).tables.ended == w.tables.ended
  {
  }

  lemma SmallKeepsEnded(w: World, s: Step, id: Id)
    requires Enabled(w, s) && id in w.tables.ended
    requires s.Tick? || s.Die? || s.Call? || s.Disconnect? || s.DeadlineFires? || s.ClosePending?
          || s.WakeDecided? || s.WakeEnded? || s.Collect? || s.ReleaseContext?
    ensures id in Apply(w, s).tables.ended && Apply(w, s).tables.ended[id] == w.tables.ended[id]
  {
    hide P.Prune, P.PruneItem, P.Settled;
  }

  lemma LargeKeepsEnded(w: World, s: Step, id: Id)
    requires Enabled(w, s) && id in w.tables.ended
    requires s.FinishRequest? || s.CloseDecide? || s.Register? || s.Launch? || s.Revoke?
    ensures id in Apply(w, s).tables.ended && Apply(w, s).tables.ended[id] == w.tables.ended[id]
  {
    hide Finish, Close, Enqueue, Start, RevokeLease;
    match s
    case FinishRequest(tid, leaseId) => FinishEffect(w, tid, leaseId);
    case CloseDecide(leaseId) => CloseEffect(w, leaseId);
    case Register(tid) => StartKeepsSessions(w, tid);
    case Launch(tid) => StartKeepsSessions(w, tid);
    case Revoke(lease) => RevokeKeepsEnded(w, lease);
  }

  lemma SweptKeepsEnded(w: World, s: Step, id: Id)
    requires Enabled(w, s) && id in w.tables.ended
    requires s.HandleLifecycle? || s.BeginRequest? || s.OpenDecide? || s.OpenPending? || s.ListLeases?
    ensures id in Apply(w, s).tables.ended && Apply(w, s).tables.ended[id] == w.tables.ended[id]
  {
    hide Begin, AdvanceWorld, SweepAt, BeginAllowed;
    match s
    case HandleLifecycle(at, process, event) =>
      SweepKeepsEnded(w, at, id);
      AdvanceKeepsEnded(SweepAt(w, at), at, process, event, id);
    case BeginRequest(tid, at, lease, drawn) =>
      SweepKeepsEnded(w, at, id);
      BeginKeepsEnded(SweepAt(w, at), tid, at, lease, drawn, id);
    case OpenDecide(at, _, _, _, _) => SweepKeepsEnded(w, at, id);
    case OpenPending => SweepKeepsEnded(w, w.clock, id);
    case ListLeases => SweepKeepsEnded(w, w.clock, id);
  }

  /** No step revives a context, or changes why it ended. */
  lemma StepKeepsEnded(w: World, s: Step, id: Id)
    requires Enabled(w, s) && id in w.tables.ended
    ensures id in Apply(w, s).tables.ended && Apply(w, s).tables.ended[id] == w.tables.ended[id]
  {
    hide *;
    if s.HandleLifecycle? || s.BeginRequest? || s.OpenDecide? || s.OpenPending? || s.ListLeases? {
      SweptKeepsEnded(w, s, id);
    } else if s.FinishRequest? || s.CloseDecide? || s.Register? || s.Launch? || s.Revoke? {
      LargeKeepsEnded(w, s, id);
    } else {
      SmallKeepsEnded(w, s, id);
    }
  }

  lemma {:induction false} RunKeepsEnded(run: seq<World>, steps: seq<Step>, first: nat, last: nat, id: Id)
    requires IsRun(run, steps) && first <= last < |run| && id in run[first].tables.ended
    ensures id in run[last].tables.ended && run[last].tables.ended[id] == run[first].tables.ended[id]
  {
    hide Apply, Enabled;
    if first < last {
      RunKeepsEnded(run, steps, first, last - 1, id);
      StepKeepsEnded(run[last - 1], steps[last - 1], id);
    }
  }

  /** A review answers nothing whose context has ended. */
  lemma EndedIsNotAnswered(pending: P.Table, ended: P.Contexts, id: Id, target: Id, outcome: Outcome, scope: Scope, uid: nat)
    requires id in pending && !pending[id].decision.IsSet() && id in ended
    ensures var after := P.Review(pending, ended, target, outcome, scope, uid).0;
            id in after && after[id].decision.outcome !in {Approved, Denied}
  {
    hide Covers, P.Principal;
    P.SweepDecides(pending, ended, id);
  }

  /** In every run, once a lifecycle event has closed the turn of a session, the requests that were in flight
      for the session stay cancelled, and whatever is still undecided among them no review ever approves. */
  lemma CancelledForGood(run: seq<World>, steps: seq<Step>, i: nat, last: nat, key: SessionKey, id: Id)
    requires IsRun(run, steps) && i < last < |run| && Closes(run[i], steps[i], key)
    requires id in run[i].tables.inflight && run[i].tables.inflight[id].Key() == key
    ensures id in run[last].tables.ended
    ensures forall target, outcome, scope, uid | id in run[last].pending && !run[last].pending[id].decision.IsSet() ::
              var after := P.Review(run[last].pending, run[last].tables.ended, target, outcome, scope, uid).0;
              id in after && after[id].decision.outcome != Approved
  {
    hide Apply, Enabled, Closes, P.Review;
    ClosedIsCancelled(run[i], steps[i], key, id);
    RunKeepsEnded(run, steps, i + 1, last, id);
    forall target, outcome, scope, uid | id in run[last].pending && !run[last].pending[id].decision.IsSet()
      ensures var after := P.Review(run[last].pending, run[last].tables.ended, target, outcome, scope, uid).0;
              id in after && after[id].decision.outcome != Approved
    {
      EndedIsNotAnswered(run[last].pending, run[last].tables.ended, id, target, outcome, scope, uid);
    }
  }

  /** In every run, once a lifecycle event has closed the turn of a session, then for as long as the session
      exists no request of that turn or of an earlier one is in the open turn, and none passes its last
      critical section: even a request that a human had approved is refused. */
  lemma NothingOutlivesItsTurn(run: seq<World>, steps: seq<Step>, i: nat, last: nat, key: SessionKey, r: Request)
    requires IsRun(run, steps) && i < last < |run| && Closes(run[i], steps[i], key) && key in run[i].tables.sessions
    requires forall j | i < j <= last :: key in run[j].tables.sessions
    requires RequestKey(r) == key && r.turn <= run[i].tables.sessions[key].turn
    ensures !ContextActive(run[last].tables.sessions, r)
    ensures forall tid, leaseId | tid in run[last].threads && run[last].threads[tid].pc.Resuming? && run[last].threads[tid].pc.request == r ::
              Finish(run[last], tid, leaseId).threads[tid].pc.Failed?
  {
    hide Apply, Enabled, Closes, ContextActive, Over, Finish;
    assert Enabled(run[i], steps[i]) && run[i + 1] == Apply(run[i], steps[i]);
    ClosedIsOver(run[i], steps[i], key, r.turn);
    ClosedTurnsStayClosed(run, steps, i + 1, last, key, r.turn, r);
  }
}

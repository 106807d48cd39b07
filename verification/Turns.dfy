/**
 A turn that is over stays over: while its session exists, no step opens it again and no request of
 that turn gets past its last critical section.
 */
module Turns {
  import opened Wrappers
  import opened Approval
  import P = Provider
  import opened BrokerTables
  import opened Machine
  import opened Shape

  /** Turn `n` of the session is over: a later turn has begun, or it was ended, or the process is gone
      and its session waits to be swept away. */
  predicate Over(w: World, key: SessionKey, n: nat) {
    && key in w.tables.sessions
    && var session := w.tables.sessions[key];
       session.turn > n || (!session.active && (session.turn == n || key.process in w.dead))
  }

  lemma BeginKeepsSessions(w: World, tid: ThreadId, at: Time, lease: Option<Id>, id: Option<Id>)
    requires BeginAllowed(w, tid, at, lease, id)
    ensures Begin(w, tid, at, lease, id).tables.sessions == w.tables.sessions && Begin(w, tid, at, lease, id).dead == w.dead
  {
  }

  lemma StartKeepsSessions(w: World, tid: ThreadId)
    requires tid in w.threads
    ensures Start(w, tid).tables == w.tables && Start(w, tid).dead == w.dead
    ensures w.threads[tid].pc.Submitting? ==> Enqueue(w, tid).tables == w.tables && Enqueue(w, tid).dead == w.dead
  {
  }

  /** Only lifecycle events and sweeps touch sessions. */
  lemma SessionsElsewhere(w: World, s: Step)
    requires Enabled(w, s) && !s.HandleLifecycle?
    ensures var v := Apply(w, s); forall key | key in v.tables.sessions ::
      key in w.tables.sessions && v.tables.sessions[key] == w.tables.sessions[key]
    ensures w.dead <= Apply(w, s).dead
  {
    hide P.Prune, P.PruneItem, Begin, Enqueue, Start, Finish, Close;
    if s.FinishRequest? {
      FinishEffect(w, s.tid, s.leaseId);
    } else if s.CloseDecide? {
      CloseEffect(w, s.leaseId);
    } else if s.BeginRequest? {
      var BeginRequest(tid, at, lease, id) := s;
      BeginKeepsSessions(SweepAt(w, at), tid, at, lease, id);
    } else if s.Launch? || s.Register? {
      StartKeepsSessions(w, s.tid);
    }
  }

  lemma AdvanceKeepsOver(w: World, at: Time, process: Identity, event: LifecycleEvent, key: SessionKey, n: nat)
    requires key in AdvanceWorld(w, at, process, event).tables.sessions
    requires if key in w.tables.sessions then Over(w, key, n) && key.process !in w.dead else key.process in w.dead
    ensures Over(AdvanceWorld(w, at, process, event), key, n)
  {
  }

  lemma StepKeepsOver(w: World, s: Step, key: SessionKey, n: nat)
    requires Enabled(w, s) && Over(w, key, n) && key in Apply(w, s).tables.sessions
    ensures Over(Apply(w, s), key, n)
  {
    if s.HandleLifecycle? {
      if s.event.Valid() {
        AdvanceKeepsOver(SweepAt(w, s.at), s.at, s.process, s.event, key, n);
      }
    } else {
      SessionsElsewhere(w, s);
      hide Apply, Enabled;
    }
  }

  lemma {:induction false} RunKeepsOver(run: seq<World>, steps: seq<Step>, first: nat, last: nat, key: SessionKey, n: nat)
    requires IsRun(run, steps) && first <= last < |run| && Over(run[first], key, n)
    requires forall i | first <= i <= last :: key in run[i].tables.sessions
    ensures Over(run[last], key, n)
  {
    hide Apply, Enabled, Over;
    if first < last {
      RunKeepsOver(run, steps, first, last - 1, key, n);
      var i := last - 1;
      assert Enabled(run[i], steps[i]) && run[i + 1] == Apply(run[i], steps[i]);
      StepKeepsOver(run[last - 1], steps[last - 1], key, n);
    }
  }

  /** In any stretch of a run in which the session exists, a turn that is over is never open again:
      no request of that turn is in the session's active turn, and none passes its last critical section. */
  lemma ClosedTurnsStayClosed(run: seq<World>, steps: seq<Step>, first: nat, last: nat, key: SessionKey, n: nat, r: Request)
    requires IsRun(run, steps) && first <= last < |run| && Over(run[first], key, n)
    requires forall i | first <= i <= last :: key in run[i].tables.sessions
    requires RequestKey(r) == key && r.turn == n
    ensures !ContextActive(run[last].tables.sessions, r)
    ensures forall tid, leaseId | tid in run[last].threads && run[last].threads[tid].pc.Resuming? && run[last].threads[tid].pc.request == r ::
              Finish(run[last], tid, leaseId).threads[tid].pc.Failed?
  {
    RunKeepsOver(run, steps, first, last, key, n);
    hide IsRun;
    NothingOpen(run[last], key, n, r);
    hide Finish, ContextActive, Over;
    forall tid, leaseId | tid in run[last].threads && run[last].threads[tid].pc.Resuming? && run[last].threads[tid].pc.request == r
      ensures Finish(run[last], tid, leaseId).threads[tid].pc.Failed?
    {
      FinishFails(run[last], tid, leaseId);
    }
  }

  lemma NothingOpen(w: World, key: SessionKey, n: nat, r: Request)
    requires Over(w, key, n) && RequestKey(r) == key && r.turn == n
    ensures !ContextActive(w.tables.sessions, r)
  {
  }

  lemma FinishFails(w: World, tid: ThreadId, leaseId: Option<Id>)
    requires tid in w.threads && w.threads[tid].pc.Resuming? && !ContextActive(w.tables.sessions, w.threads[tid].pc.request)
    ensures Finish(w, tid, leaseId).threads[tid].pc.Failed?
  {
  }

  lemma AdvanceCounts(t: Tables, at: Time, process: Identity, event: LifecycleEvent, key: SessionKey)
    requires key in t.sessions && key in Advance(t, at, process, event).0.sessions
    ensures var (before, (u, error)) := (t.sessions[key], Advance(t, at, process, event));
            var accepted := event.kind.TurnStarted? && SessionKey(process, event.sessionId) == key && error.None?;
            if accepted then u.sessions[key].turn == before.turn + 1 && u.sessions[key].active && !before.active
            else u.sessions[key].turn == before.turn && (u.sessions[key].active ==> before.active)
  {
  }

  /** While the process lives, a session's turn number changes only by an accepted turn start, which
      adds one and opens the new turn; nothing else opens a turn. */
  lemma TurnsAdvanceByOne(w: World, s: Step, key: SessionKey)
    requires Enabled(w, s) && key in w.tables.sessions && key in Apply(w, s).tables.sessions && key.process !in w.dead
    ensures var (before, after) := (w.tables.sessions[key], Apply(w, s).tables.sessions[key]);
            var accepted := && s.HandleLifecycle? && s.event.kind.TurnStarted? && SessionKey(s.process, s.event.sessionId) == key
                            && Lifecycle(w.tables, s.at, w.dead, s.process, s.event).1.None?;
            if accepted then after.turn == before.turn + 1 && after.active && !before.active
            else after.turn == before.turn && (after.active ==> before.active)
  {
    if s.HandleLifecycle? {
      if s.event.Valid() {
        AdvanceCounts(Sweep(w.tables, s.at, w.dead), s.at, s.process, s.event, key);
        hide Advance;
      }
    } else {
      SessionsElsewhere(w, s);
      hide Apply, Enabled;
    }
  }
}

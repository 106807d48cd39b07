/**
 Nothing runs for a client that is gone: after a client has disconnected, or its process has died, no
 command of that call is executed, and a request that a disconnected client still waits for is cancelled.
 */
module Gone {
  import opened Wrappers
  import opened Approval
  import P = Provider
  import opened BrokerTables
  import opened Sections
  import opened Machine
  import opened Shape
  import opened Trace
  import opened Endings

  /** The client of the thread has disconnected, or its process has died. */
  predicate ClientGone(w: World, tid: ThreadId) {
    tid in w.threads && (w.threads[tid].disconnected || w.threads[tid].process in w.dead)
  }

  /** The last look before a command runs: it runs exactly if the client is still there. */
  lemma LaunchLooksLast(w: World, tid: ThreadId)
    requires Enabled(w, Launch(tid))
    ensures var (v, thread) := (Apply(w, Launch(tid)), w.threads[tid]);
            && (v.threads[tid].pc.Executed? <==> !thread.disconnected && thread.process !in w.dead)
            && (v.threads[tid].pc.Executed? ==> v.history == w.history + [Execution(tid, thread.command)])
            && (!v.threads[tid].pc.Executed? ==> v.history == w.history && v.threads[tid].pc == Failed(RequestEnded(Cancelled)))
  {
  }

  // What steps do to threads and to the history.

  /** A thread keeps its process, and stays disconnected; it gets a request only in its first critical
      section and comes to its last only by releasing its context. */
  predicate Steps(w: World, s: Step, v: World, tid: ThreadId)
    requires tid in w.threads
  {
    && tid in v.threads && w.dead <= v.dead
    && var (before, after) := (w.threads[tid], v.threads[tid]);
       && after.process == before.process
       && (after.disconnected <==> before.disconnected || s == Disconnect(tid))
       && (HeldRequest(after.pc) == HeldRequest(before.pc) || HeldRequest(after.pc).None? || (s.BeginRequest? && s.tid == tid))
       && (after.pc.Resuming? ==> after.pc == before.pc || s == ReleaseContext(tid))
  }

  /** The history grows by events of which none is an execution. */
  ghost predicate NoneRuns(w: World, v: World) {
    w.history <= v.history && forall k | |w.history| <= k < |v.history| :: !v.history[k].Execution?
  }

  /** The first critical section is a sweep and the rest. */
  lemma BeginUnfolds(w: World, s: Step) returns (u: World)
    requires Enabled(w, s) && s.BeginRequest?
    ensures u.threads == w.threads && u.dead == w.dead && NoneRuns(w, u)
    ensures BeginAllowed(u, s.tid, s.at, s.lease, s.requestId) && Apply(w, s) == Begin(u, s.tid, s.at, s.lease, s.requestId)
  {
    hide Sweep, Begin;
    u := SweepAt(w, s.at);
  }

  lemma BeginThread(w: World, s: Step, tid: ThreadId)
    requires Enabled(w, s) && tid in w.threads && s.BeginRequest?
    ensures Steps(w, s, Apply(w, s), tid) && NoneRuns(w, Apply(w, s))
  {
    hide Apply, Enabled, Begin, Submit, Asks;
    var u := BeginUnfolds(w, s);
    BeginCases(u, s.tid, s.at, s.lease, s.requestId);
    SubmitThreads(u, s.tid, tid);
    BeginEvents(u, s.tid, s.at, s.lease, s.requestId);
    hide BeginAllowed;
  }

  lemma BeginEvents(w: World, tid: ThreadId, at: Time, lease: Option<Id>, id: Option<Id>)
    requires BeginAllowed(w, tid, at, lease, id)
    ensures NoneRuns(w, Begin(w, tid, at, lease, id))
  {
    hide Matches, SomeMatch;
  }

  lemma SubmitThreads(w: World, tid: ThreadId, other: ThreadId)
    requires tid in w.threads && other in w.threads
    ensures forall r :: var v := Submit(w, tid, r);
              && v.dead == w.dead && v.threads == w.threads[tid := w.threads[tid].(pc := Submitting(r))]
  {
  }

  lemma EnsureEvents(w: World, request: Request, decision: Decision, at: Time, leaseId: Option<Id>)
    ensures NoneRuns(w, Ensure(w, request, decision, at, leaseId).0)
  {
  }

  lemma AdmitEvents(w: World, tid: ThreadId, request: Request, decision: Decision, leaseId: Option<Id>)
    requires tid in w.threads && RequestKey(request) in w.tables.sessions
    ensures NoneRuns(w, Admit(w, tid, request, decision, leaseId))
  {
    EnsureEvents(w, request, decision, w.clock, leaseId);
    EnsureEffect(w, request, decision, w.clock, leaseId);
    hide Ensure;
  }

  lemma FinishEvents(w: World, tid: ThreadId, leaseId: Option<Id>)
    requires tid in w.threads && w.threads[tid].pc.Resuming?
    ensures NoneRuns(w, Finish(w, tid, leaseId))
  {
    var Resuming(request, decision) := w.threads[tid].pc;
    var v := w.(tables := w.tables.(inflight := w.tables.inflight - {request.id}));
    if RequestKey(request) in v.tables.sessions {
      AdmitEvents(v, tid, request, decision, leaseId);
    }
    hide Admit;
  }

  lemma CloseEvents(w: World, leaseId: Option<Id>)
    requires w.lock.Deciding?
    ensures NoneRuns(w, Close(w, leaseId))
  {
    var Deciding(at, target, outcome, scope, uid) := w.lock;
    var (pending, answer) := P.Review(w.pending, w.tables.ended, target, outcome, scope, uid);
    if answer.Success? {
      var u := Log(w.(pending := pending, lock := Free), [Reviewed(answer.value.request, answer.value.decision)]);
      EnsureEvents(u, answer.value.request, answer.value.decision, at, leaseId);
    }
    hide Ensure, P.Review;
  }

  lemma FinishThread(w: World, s: Step, tid: ThreadId)
    requires Enabled(w, s) && tid in w.threads && (s.FinishRequest? || s.CloseDecide?)
    ensures Steps(w, s, Apply(w, s), tid) && NoneRuns(w, Apply(w, s))
  {
    hide Finish, Close;
    if s.FinishRequest? {
      FinishEffect(w, s.tid, s.leaseId);
      FinishEvents(w, s.tid, s.leaseId);
    } else {
      CloseEffect(w, s.leaseId);
      CloseEvents(w, s.leaseId);
    }
  }

  lemma LaunchThread(w: World, s: Step, tid: ThreadId)
    requires Enabled(w, s) && tid in w.threads && s.Launch?
    ensures var v := Apply(w, s);
            && Steps(w, s, v, tid) && w.history <= v.history
            && (s != Launch(tid) ==> forall k | |w.history| <= k < |v.history| :: !ExecutionOf(v.history[k], tid))
  {
  }

  lemma LocalThread(w: World, s: Step, tid: ThreadId)
    requires Enabled(w, s) && tid in w.threads
    requires s.WakeDecided? || s.WakeEnded? || s.Collect? || s.ReleaseContext?
    ensures Steps(w, s, Apply(w, s), tid) && NoneRuns(w, Apply(w, s))
  {
    hide P.Settled, P.PruneItem;
  }

  lemma TableThread(w: World, s: Step, tid: ThreadId)
    requires Enabled(w, s) && tid in w.threads && (s.Register? || s.Revoke?)
    ensures Steps(w, s, Apply(w, s), tid) && NoneRuns(w, Apply(w, s))
  {
  }

  lemma OuterThread(w: World, s: Step, tid: ThreadId)
    requires Enabled(w, s) && tid in w.threads
    requires s.Tick? || s.Die? || s.Call? || s.Disconnect? || s.DeadlineFires? || s.ClosePending?
          || s.HandleLifecycle? || s.OpenDecide? || s.OpenPending? || s.ListLeases?
    ensures Steps(w, s, Apply(w, s), tid) && NoneRuns(w, Apply(w, s))
  {
    hide P.Prune, Sweep, Advance;
  }

  /** What any step does to a thread, and that only its own launch runs it. */
  lemma ThreadSteps(w: World, s: Step, tid: ThreadId)
    requires Enabled(w, s) && tid in w.threads
    ensures var v := Apply(w, s);
            && Steps(w, s, v, tid) && w.history <= v.history
            && (s != Launch(tid) ==> forall k | |w.history| <= k < |v.history| :: !ExecutionOf(v.history[k], tid))
  {
    hide Apply, Enabled, Steps;
    if s.BeginRequest? {
      BeginThread(w, s, tid);
    } else if s.FinishRequest? || s.CloseDecide? {
      FinishThread(w, s, tid);
    } else if s.Launch? {
      LaunchThread(w, s, tid);
    } else if s.Register? || s.Revoke? {
      TableThread(w, s, tid);
    } else if s.WakeDecided? || s.WakeEnded? || s.Collect? || s.ReleaseContext? {
      LocalThread(w, s, tid);
    } else {
      OuterThread(w, s, tid);
    }
  }

  // Nothing runs.

  lemma GoneStep(w: World, s: Step, tid: ThreadId)
    requires Enabled(w, s) && ClientGone(w, tid)
    ensures var v := Apply(w, s);
            && ClientGone(v, tid) && w.history <= v.history
            && forall k | |w.history| <= k < |v.history| :: !ExecutionOf(v.history[k], tid)
  {
    ThreadSteps(w, s, tid);
    if s == Launch(tid) {
      LaunchLooksLast(w, tid);
    }
    hide Apply, Enabled;
  }

  lemma {:induction false} GoneRun(run: seq<World>, steps: seq<Step>, first: nat, last: nat, tid: ThreadId)
    requires IsRun(run, steps) && first <= last < |run| && ClientGone(run[first], tid)
    ensures ClientGone(run[last], tid) && run[first].history <= run[last].history
    ensures forall k | |run[first].history| <= k < |run[last].history| :: !ExecutionOf(run[last].history[k], tid)
  {
    hide Apply, Enabled, ClientGone;
    if first < last {
      GoneRun(run, steps, first, last - 1, tid);
      var w := run[last - 1];
      assert Enabled(w, steps[last - 1]) && run[last] == Apply(w, steps[last - 1]);
      GoneStep(w, steps[last - 1], tid);
      forall k | |run[first].history| <= k < |run[last].history| ensures !ExecutionOf(run[last].history[k], tid) {
        if k < |w.history| {
          assert run[last].history[k] == w.history[k];
        }
      }
    }
  }

  /** In every run, no execution of a call is recorded after its client has disconnected or its process has
      died. */
  lemma NothingRunsForTheGone(run: seq<World>, steps: seq<Step>, i: nat, last: nat, tid: ThreadId, k: nat)
    requires IsRun(run, steps) && i < last < |run| && tid in run[i].threads
    requires steps[i] == Disconnect(tid) || steps[i] == Die(run[i].threads[tid].process)
    requires |run[i].history| <= k < |run[last].history|
    ensures !ExecutionOf(run[last].history[k], tid)
  {
    assert Enabled(run[i], steps[i]) && run[i + 1] == Apply(run[i], steps[i]);
    LeavesNow(run[i], steps[i], tid);
    hide Apply, Enabled, ClientGone;
    GoneRun(run, steps, i + 1, last, tid);
  }

  lemma LeavesNow(w: World, s: Step, tid: ThreadId)
    requires Enabled(w, s) && tid in w.threads && (s == Disconnect(tid) || s == Die(w.threads[tid].process))
    ensures ClientGone(Apply(w, s), tid) && Apply(w, s).history == w.history
  {
  }

  // A disconnected client's request.

  /** A request that a disconnected client waits for is cancelled or otherwise ended, and so is one whose
      decision has been collected and whose context released. */
  ghost predicate CutOff(w: World, tid: ThreadId)
    requires tid in w.threads
  {
    var thread := w.threads[tid];
    HeldRequest(thread.pc).Some? && (thread.disconnected || thread.pc.Resuming?) ==> HeldRequest(thread.pc).value.id in w.tables.ended
  }

  lemma BeginCutsOff(w: World, s: Step, tid: ThreadId)
    requires Enabled(w, s) && s.BeginRequest? && s.tid == tid
    ensures tid in Apply(w, s).threads && CutOff(Apply(w, s), tid)
  {
    hide Apply, Enabled, Begin, Submit, Asks;
    var u := BeginUnfolds(w, s);
    BeginCases(u, s.tid, s.at, s.lease, s.requestId);
    SubmitCutsOff(u, tid);
    hide BeginAllowed;
  }

  lemma SubmitCutsOff(w: World, tid: ThreadId)
    requires tid in w.threads
    ensures forall r :: var v := Submit(w, tid, r); tid in v.threads && CutOff(v, tid)
  {
  }

  lemma ReleaseCutsOff(w: World, s: Step, tid: ThreadId)
    requires Enabled(w, s) && tid in w.threads && (s == ReleaseContext(tid) || s == Disconnect(tid))
    ensures tid in Apply(w, s).threads && CutOff(Apply(w, s), tid)
  {
  }

  lemma CutOffStep(w: World, s: Step, tid: ThreadId)
    requires Enabled(w, s) && tid in w.threads && CutOff(w, tid)
    ensures tid in Apply(w, s).threads && CutOff(Apply(w, s), tid)
  {
    ThreadSteps(w, s, tid);
    if s.BeginRequest? && s.tid == tid {
      hide Apply, Enabled, CutOff;
      BeginCutsOff(w, s, tid);
    } else if s == ReleaseContext(tid) || s == Disconnect(tid) {
      hide Apply, Enabled, CutOff;
      ReleaseCutsOff(w, s, tid);
    } else if HeldRequest(w.threads[tid].pc).Some? && HeldRequest(w.threads[tid].pc).value.id in w.tables.ended {
      hide Apply, Enabled;
      StepKeepsEnded(w, s, HeldRequest(w.threads[tid].pc).value.id);
    } else {
      hide Apply, Enabled;
    }
  }

  lemma NewElsewhere(w: World, s: Step, tid: ThreadId)
    requires Enabled(w, s) && tid !in w.threads && !(s.BeginRequest? || s.FinishRequest? || s.CloseDecide?)
    ensures tid in Apply(w, s).threads ==> CutOff(Apply(w, s), tid)
  {
    hide P.Prune, P.Settled, Sweep, Advance;
  }

  lemma NewIsCutOff(w: World, s: Step, tid: ThreadId)
    requires Enabled(w, s) && tid !in w.threads && tid in Apply(w, s).threads
    ensures CutOff(Apply(w, s), tid)
  {
    hide P.Prune, P.Settled, Sweep, Begin, Finish, Close, AdvanceWorld, SweepAt, Enqueue, Start, RevokeLease, BeginAllowed;
    match s
    case BeginRequest(_, _, _, _) =>
      hide Apply, Enabled;
      var u := BeginUnfolds(w, s);
      BeginCases(u, s.tid, s.at, s.lease, s.requestId);
    case FinishRequest(other, leaseId) => FinishEffect(w, other, leaseId);
    case CloseDecide(leaseId) => CloseEffect(w, leaseId);
    case _ => NewElsewhere(w, s, tid);
  }

  /** In every run, in every state: what a disconnected client waits for has come to its end. */
  lemma {:induction false} GoneClientsAreCutOff(run: seq<World>, steps: seq<Step>, n: nat, tid: ThreadId)
    requires IsRun(run, steps) && n < |run| && tid in run[n].threads
    ensures CutOff(run[n], tid)
  {
    hide Apply, Enabled, CutOff;
    if n > 0 {
      var w, s := run[n - 1], steps[n - 1];
      assert Enabled(w, s) && run[n] == Apply(w, s);
      if tid in w.threads {
        GoneClientsAreCutOff(run, steps, n - 1, tid);
        CutOffStep(w, s, tid);
      } else {
        NewIsCutOff(w, s, tid);
      }
    }
  }

  /** A dead process starts nothing: its next request is refused. */
  lemma DeadAreRefused(w: World, tid: ThreadId, at: Time, lease: Option<Id>, id: Option<Id>)
    requires Keyed(w.tables.sessions) && Enabled(w, BeginRequest(tid, at, lease, id)) && w.threads[tid].process in w.dead
    ensures Apply(w, BeginRequest(tid, at, lease, id)).threads[tid].pc == Failed(NoActiveTurn)
  {
    var u := SweepAt(w, at);
    forall key ensures !OnlyActive(u.tables, w.threads[tid].process, key) {
      SweepKeeps(w.tables, at, w.dead, key, "");
    }
    assert ActiveSession(u.tables, w.threads[tid].process).None?;
    hide Sweep;
  }
}

/**
 What holds in every state of every run: an execution is always the end of a chain that starts with
 a human's approval.
 */
module Runs {
  import opened Wrappers
  import opened Approval
  import P = Provider
  import opened BrokerTables
  import opened Machine
  import opened Shape
  import opened Safety
  import opened Trace
  import opened Ledger
  import opened Waiters

  ghost predicate Inv(w: World) {
    Fits(w) && Safe(w) && Traced(w) && Kept(w)
  }

  lemma InvInitial(w: World)
    requires Initial(w)
    ensures Inv(w)
  {
  }

  lemma InvStep(w: World, s: Step)
    requires Inv(w) && Enabled(w, s)
    ensures Inv(Apply(w, s))
  {
    hide Fits, Safe, Traced, Kept;
    FitsStep(w, s);
    SafeStep(w, s);
    TracedStep(w, s);
    KeptStep(w, s);
  }

  lemma {:induction false} InvRun(run: seq<World>, steps: seq<Step>, n: nat)
    requires IsRun(run, steps) && n < |run|
    ensures Inv(run[n])
  {
    hide Inv, Enabled, Apply;
    if n == 0 {
      InvInitial(run[0]);
    } else {
      InvRun(run, steps, n - 1);
      InvStep(run[n - 1], steps[n - 1]);
    }
  }

  /** The execution recorded at `k` goes back to a human's approval: it runs the command its thread was
      called with, after the last critical section of that thread; and that section was either for the
      thread's own request for that very command, with the decision of an earlier review that speaks for
      it, the session being active at the request's turn; or had a live lease matching the active
      session of the process, still standing since its creation, which an earlier review of the same
      process and session and, for a message lease, of the same turn had approved.  A review that
      approved one command was of that request itself. */
  ghost predicate Traceable(w: World, k: nat)
    requires k < |w.history| && w.history[k].Execution?
  {
    var h, tid := w.history, w.history[k].tid;
    && tid in w.threads && h[k].command == w.threads[tid].command
    && (exists j | 0 <= j < k :: AdmittedThread(h[j]) == Some(tid) && Approves(w, j))
    && forall j | 0 <= j < |h| && j != k :: !ExecutionOf(h[j], tid)
  }

  /** How far an approval of one request may speak for another: a command approval for that request alone,
      a message approval within its turn, a session approval within its session. */
  predicate Same(target: Request, r: Request, scope: Scope) {
    match scope
    case CommandScope => target == r
    case MessageScope => target.process == r.process && target.sessionId == r.sessionId && target.turn == r.turn
    case SessionScope => target.process == r.process && target.sessionId == r.sessionId
    case _ => false
  }

  ghost predicate Approves(w: World, j: nat)
    requires j < |w.history|
  {
    var h := w.history;
    match h[j]
    case AdmittedByDecision(tid, r, d, session) =>
      && tid in w.threads && Asks(w.threads[tid], r)
      && r.id in w.requests && w.requests[r.id] == Origin(r, tid)
      && session.Key() == RequestKey(r) && session.active && session.turn == r.turn
      && d.Valid() && exists i | 0 <= i < j :: Speaks(h[i], r, d) && Same(h[i].target, r, d.scope)
    case AdmittedByLease(tid, session, lease, at) =>
      && tid in w.threads && session.process == w.threads[tid].process
      && session.active && lease.expiresAt > at && lease.process == session.process && lease.sessionId == session.sessionId
      && (lease.scope == SessionScope || (lease.scope == MessageScope && lease.turn == Some(session.turn)))
      && exists i, c | 0 <= i < c < j :: Grants(h[i], lease) && h[c] == LeaseCreated(lease) && forall e | c < e < j :: !Ends(h[e], lease)
    case _ => false
  }

  lemma ExecutionsAreTraceable(w: World, k: nat)
    requires Fits(w) && Traced(w) && k < |w.history| && w.history[k].Execution?
    ensures Traceable(w, k)
  {
    var h, tid := w.history, w.history[k].tid;
    assert Justified(h, w.requests, k) && Recorded(w, k);
    var j :| 0 <= j < k && AdmittedThread(h[j]) == Some(tid);
    AdmissionsApprove(w, j);
    forall i | 0 <= i < |h| && i != k ensures !ExecutionOf(h[i], tid) {
      assert Justified(h, w.requests, i);
    }
  }

  lemma AdmissionsApprove(w: World, j: nat)
    requires Fits(w) && Traced(w) && j < |w.history| && AdmittedThread(w.history[j]).Some?
    ensures Approves(w, j)
  {
    assert Justified(w.history, w.requests, j) && Recorded(w, j);
    if w.history[j].AdmittedByDecision? {
      DecisionApproves(w, j);
    } else {
      LeaseApproves(w, j);
    }
  }

  lemma DecisionApproves(w: World, j: nat)
    requires Fits(w) && Traced(w) && j < |w.history| && w.history[j].AdmittedByDecision?
    requires Justified(w.history, w.requests, j) && Recorded(w, j)
    ensures Approves(w, j)
  {
    var h, r, d := w.history, w.history[j].request, w.history[j].decision;
    assert RequestFits(w, r.id);
    var i :| 0 <= i < j && Speaks(h[i], r, d);
    assert Recorded(w, i);
    hide Fits, Traced, Justified;
  }

  lemma LeaseApproves(w: World, j: nat)
    requires Traced(w) && j < |w.history| && w.history[j].AdmittedByLease?
    requires Justified(w.history, w.requests, j) && Recorded(w, j)
    ensures Approves(w, j)
  {
    var h, lease := w.history, w.history[j].lease;
    var c := StandsSince(h[..j], lease);
    assert Justified(h, w.requests, c);
    var i :| 0 <= i < c && Grants(h[i], lease);
    hide Traced, Justified, Ends, Grants;
    assert forall e | c < e < j :: h[..j][e] == h[e];
    assert Grants(h[i], lease) && h[c] == LeaseCreated(lease);
  }

  lemma StandsSince(h: seq<Event>, lease: Lease) returns (c: nat)
    requires Stands(h, lease)
    ensures c < |h| && h[c] == LeaseCreated(lease) && forall e | c < e < |h| :: !Ends(h[e], lease)
  {
    c :| 0 <= c < |h| && h[c] == LeaseCreated(lease) && forall e | c < e < |h| :: !Ends(h[e], lease);
  }

  /** In every run, every execution goes back to a human's approval. */
  lemma EveryExecutionIsApproved(run: seq<World>, steps: seq<Step>, n: nat, k: nat)
    requires IsRun(run, steps) && n < |run|
    requires k < |run[n].history| && run[n].history[k].Execution?
    ensures Traceable(run[n], k)
  {
    InvRun(run, steps, n);
    ExecutionsAreTraceable(run[n], k);
  }

  /** In every state of every run: the coupling of the two components, the lease table, and at most
      one unexpired lease of each scope for each session. */
  lemma EveryStateIsSafe(run: seq<World>, steps: seq<Step>, n: nat)
    requires IsRun(run, steps) && n < |run|
    ensures var w := run[n];
      && (forall id | id in w.tables.inflight && id !in w.tables.ended ::
            id in w.requests && ContextActive(w.tables.sessions, w.requests[id].request))
      && (forall id | id in w.tables.leases :: LeaseSound(w.tables.sessions, w.tables.leases[id]))
      && (forall a, b | a in w.tables.leases && b in w.tables.leases :: Unique(w, a, b))
  {
    InvRun(run, steps, n);
    var w := run[n];
    InflightKnown(w);
    forall id | id in w.tables.inflight && id !in w.tables.ended
      ensures id in w.requests && ContextActive(w.tables.sessions, w.requests[id].request)
    {
      assert Coupled(w, id);
    }
  }

  /** In every run, whenever a review is about to be answered, every request it would approve belongs
      to the open turn of its session, and message and session scope decide the same requests. */
  lemma EveryReviewIsInItsTurn(run: seq<World>, steps: seq<Step>, n: nat, target: Id, outcome: Outcome, scope: Scope, uid: nat)
    requires IsRun(run, steps) && n < |run|
    ensures var w := run[n];
            var (after, answer) := P.Review(w.pending, w.tables.ended, target, outcome, scope, uid);
            answer.Success? ==>
              && ContextActive(w.tables.sessions, answer.value.request)
              && forall id | id in w.pending && !w.pending[id].decision.IsSet() && after[id].decision.outcome == Approved ::
                   id in w.requests && ContextActive(w.tables.sessions, w.requests[id].request)
    ensures var w := run[n];
            var (m, first) := P.Review(w.pending, w.tables.ended, target, Approved, MessageScope, uid);
            var (s, second) := P.Review(w.pending, w.tables.ended, target, Approved, SessionScope, uid);
            && (first.Success? <==> second.Success?)
            && forall id | id in w.pending :: m[id].decision.outcome == s[id].decision.outcome
  {
    InvRun(run, steps, n);
    hide IsRun, Fits, Safe, ContextActive;
    if P.Review(run[n].pending, run[n].tables.ended, target, outcome, scope, uid).1.Success? {
      ReviewApprovesOnlyOpenTurns(run[n], target, outcome, scope, uid);
    }
    MessageAndSessionReviewsAgree(run[n], target, uid);
  }

  /** In every run, a request that reads an up-to-date clock is admitted without a review exactly when
      its process has one session with an open turn, and a lease of that session was created, has not
      expired, and was not cancelled since by a revocation, the end of its session or, for a message
      lease, a change of turn. */
  lemma EveryLeaseAdmissionFollowsHistory(run: seq<World>, steps: seq<Step>, n: nat, tid: ThreadId, lease: Option<Id>, id: Option<Id>)
    requires IsRun(run, steps) && n < |run|
    requires Enabled(run[n], BeginRequest(tid, run[n].clock, lease, id))
    ensures var w := run[n];
            Apply(w, BeginRequest(tid, w.clock, lease, id)).threads[tid].pc.Admitted? <==>
            exists key, l: Lease ::
              && OnlyActive(SweepAt(w, w.clock).tables, w.threads[tid].process, key) && l.Key() == key
              && Uncancelled(w.history, l) && l.expiresAt > w.clock && l.process !in w.dead
  {
    InvRun(run, steps, n);
    var w := run[n];
    AdmittedWithoutReview(w, tid, w.clock, lease, id);
    hide *;
    KeptIsDated(w);
    forall l: Lease
      ensures Stands(w.history + [Swept(w.clock, w.dead)], l) <==>
              Uncancelled(w.history, l) && l.expiresAt > w.clock && l.process !in w.dead
    {
      StandsNow(w, l);
    }
  }

  lemma KeptIsDated(w: World)
    requires Inv(w)
    ensures Dated(w)
  {
  }

  /** In every run, a waiter that was decided or whose context has ended is served; see NoWaiterIsLost. */
  lemma EveryWaiterIsServed(run: seq<World>, steps: seq<Step>, n: nat, tid: ThreadId, spare: Id) returns (path: seq<World>, own: seq<Step>)
    requires IsRun(run, steps) && n < |run|
    requires tid in run[n].threads && run[n].threads[tid].pc.Waiting? && spare !in run[n].issued
    requires var id := run[n].threads[tid].pc.request.id; id in run[n].tables.ended || (id in run[n].pending && run[n].pending[id].done)
    ensures |path| == |own| + 1 && IsPath(path, own) && path[0] == run[n] && |own| <= 5
    ensures var request, last := run[n].threads[tid].pc.request, path[|own|];
            request.id in run[n].pending && tid in last.threads && Served(run[n], request, last.threads[tid].pc)
  {
    InvRun(run, steps, n);
    hide IsRun, Fits, Safe, Traced, Kept, IsPath, Served;
    path, own := NoWaiterIsLost(run[n], tid, spare);
  }
}

/**
 Approvals for one command are used once: if humans only ever approve single commands, there are no
 leases, and executions are never more than approvals.
 */
module OneShot {
  import opened Wrappers
  import opened Approval
  import opened BrokerTables
  import opened Machine
  import opened Shape
  import opened Ledger
  import opened Trace
  import opened Runs

  predicate IsApproval(e: Event) {
    e.Reviewed? && e.decision.outcome == Approved
  }

  predicate OnlyCommands(h: seq<Event>) {
    forall k | 0 <= k < |h| && IsApproval(h[k]) :: h[k].decision.scope == CommandScope
  }

  function Executions(h: seq<Event>): set<nat> {
    set k: nat | k < |h| && h[k].Execution?
  }

  function Approvals(h: seq<Event>): set<nat> {
    set k: nat | k < |h| && IsApproval(h[k])
  }

  /** The review at `i` approved the very request that the thread of the execution at `k` had made, for
      the very command that was run. */
  ghost predicate Pays(w: World, i: nat, k: nat) {
    && i < k < |w.history| && IsApproval(w.history[i]) && w.history[k].Execution?
    && var target := w.history[i].target;
       && target.id in w.requests && w.requests[target.id] == Origin(target, w.history[k].tid)
       && target.command == w.history[k].command
  }

  lemma LeaseNeedsBroadApproval(h: seq<Event>, n: nat, lease: Lease)
    requires n <= |h| && LeaseBacked(h, n, lease)
    ensures !OnlyCommands(h)
  {
    var k :| 0 <= k < n && Grants(h[k], lease);
    assert IsApproval(h[k]);
  }

  lemma LeasesNeedBroadApproval(w: World)
    requires Inv(w)
    ensures w.tables.leases != map[] ==> !OnlyCommands(w.history)
  {
    hide OnlyCommands, LeaseBacked;
    if id :| id in w.tables.leases {
      LeaseNeedsBroadApproval(w.history, |w.history|, w.tables.leases[id]);
    }
  }

  lemma EachExecutionIsPaid(w: World, k: nat)
    requires Inv(w) && OnlyCommands(w.history) && k in Executions(w.history)
    ensures exists i: nat :: Pays(w, i, k)
  {
    ExecutionsAreTraceable(w, k);
    var j := AdmissionOf(w, k);
    hide *;
    if w.history[j].AdmittedByLease? {
      LeaseWasApproved(w, j);
    } else {
      var i := DecisionPays(w, j, k);
    }
  }

  lemma AdmissionOf(w: World, k: nat) returns (j: nat)
    requires k < |w.history| && w.history[k].Execution? && Traceable(w, k)
    ensures j < k && Approves(w, j) && (w.history[j].AdmittedByLease? || w.history[j].AdmittedByDecision?)
    ensures w.history[k].tid == w.history[j].tid && w.history[k].tid in w.threads
    ensures w.history[k].command == w.threads[w.history[k].tid].command
  {
    hide Approves, ExecutionOf;
    j :| 0 <= j < k && AdmittedThread(w.history[j]) == Some(w.history[k].tid) && Approves(w, j);
  }

  lemma LeaseWasApproved(w: World, j: nat)
    requires j < |w.history| && w.history[j].AdmittedByLease? && Approves(w, j)
    ensures !OnlyCommands(w.history)
  {
    hide Ends;
    var h, lease := w.history, w.history[j].lease;
    var i, c :| 0 <= i < c < j && Grants(h[i], lease) && h[c] == LeaseCreated(lease) && forall e | c < e < j :: !Ends(h[e], lease);
    assert IsApproval(h[i]);
  }

  lemma DecisionPays(w: World, j: nat, k: nat) returns (i: nat)
    requires j < k < |w.history| && w.history[j].AdmittedByDecision? && Approves(w, j) && OnlyCommands(w.history)
    requires w.history[k].Execution? && w.history[k].tid == w.history[j].tid
    requires w.history[k].tid in w.threads && w.history[k].command == w.threads[w.history[k].tid].command
    ensures Pays(w, i, k)
  {
    var h, r, d := w.history, w.history[j].request, w.history[j].decision;
    i :| 0 <= i < j && Speaks(h[i], r, d) && Same(h[i].target, r, d.scope);
    assert IsApproval(h[i]);
  }

  lemma NoApprovalPaysTwice(w: World, i: nat, k: nat, other: nat)
    requires Inv(w) && Pays(w, i, k) && Pays(w, i, other)
    ensures k == other
  {
    assert Justified(w.history, w.requests, k) && Justified(w.history, w.requests, other);
  }

  lemma PayingApproves(w: World, i: nat, k: nat)
    requires Pays(w, i, k)
    ensures i in Approvals(w.history)
  {
  }

  /** An injective map into a set has no more keys than the set has elements. */
  lemma {:induction false} InjectionBound(f: map<nat, nat>, targets: set<nat>)
    requires forall k | k in f :: f[k] in targets
    requires forall k, l | k in f && l in f && f[k] == f[l] :: k == l
    ensures |f.Keys| <= |targets|
  {
    if k :| k in f {
      var g := f - {k};
      InjectionBound(g, targets - {f[k]});
      assert g.Keys == f.Keys - {k};
    } else {
      assert f.Keys == {};
    }
  }

  /** In a run whose reviews are denials or approvals of single commands no lease ever exists, each
      execution is paid for by its own approving review, and no review pays for two. */
  lemma CommandApprovalsAreOneShot(run: seq<World>, steps: seq<Step>, n: nat) returns (payment: map<nat, nat>)
    requires IsRun(run, steps) && n < |run| && OnlyCommands(run[n].history)
    ensures run[n].tables.leases == map[]
    ensures payment.Keys == Executions(run[n].history)
    ensures forall k | k in payment :: payment[k] in Approvals(run[n].history) && Pays(run[n], payment[k], k)
    ensures forall k, l | k in payment && l in payment && payment[k] == payment[l] :: k == l
    ensures |Executions(run[n].history)| <= |Approvals(run[n].history)|
  {
    hide *;
    InvRun(run, steps, n);
    var w := run[n];
    LeasesNeedBroadApproval(w);
    forall k | k in Executions(w.history) ensures exists i: nat :: Pays(w, i, k) {
      EachExecutionIsPaid(w, k);
    }
    payment := map k | k in Executions(w.history) :: var i: nat :| Pays(w, i, k); i;
    forall k | k in payment ensures payment[k] in Approvals(w.history) {
      PayingApproves(w, payment[k], k);
    }
    forall k, l | k in payment && l in payment && payment[k] == payment[l] ensures k == l {
      NoApprovalPaysTwice(w, payment[k], k, l);
    }
    InjectionBound(payment, Approvals(w.history));
  }
}

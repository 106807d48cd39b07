/**
 No request is answered after its time: whatever an approver's answer decides was, when the approver's
 call swept the tables, within its deadline and of a living process, though the answer may be given
 later and the timer of a deadline may not have fired yet.
 */
module Timely {
  import opened Wrappers
  import opened Approval
  import P = Provider
  import opened BrokerTables
  import opened Sections
  import opened Machine
  import opened Shape
  import opened Safety
  import opened Runs
  import opened Endings

  /** If the request is in flight and its context is live, it was in time and its process alive. */
  predicate InTime(w: World, at: Time, dead: set<Identity>, id: Id) {
    id in w.tables.inflight && id !in w.tables.ended ==>
      w.tables.inflight[id].expiresAt > at && w.tables.inflight[id].process !in dead
  }

  lemma SweptIsInTime(w: World, at: Time, id: Id)
    requires Fits(w) && Safe(w)
    ensures InTime(SweepAt(w, at), at, w.dead, id)
  {
    SweepCancels(w.tables, at, w.dead, id);
    if id in w.tables.inflight && id !in w.tables.ended {
      assert RequestFits(w, id) && Coupled(w, id);
    }
  }

  /** While a review holds the broker's lock, no request enters or leaves the table. */
  lemma HeldLock(w: World, s: Step)
    requires Enabled(w, s) && w.lock.Deciding? && !s.CloseDecide?
    ensures Apply(w, s).lock == w.lock && Apply(w, s).tables.inflight == w.tables.inflight
  {
    hide P.Prune, P.PruneItem, P.Settled;
  }

  lemma {:induction false} HeldSince(run: seq<World>, steps: seq<Step>, first: nat, last: nat, id: Id)
    requires IsRun(run, steps) && first < last < |run| && steps[first].OpenDecide?
    requires forall i | first < i < last :: !steps[i].CloseDecide?
    ensures run[last].lock.Deciding? && InTime(run[last], steps[first].at, run[first].dead, id)
    decreases last
  {
    hide Apply, Enabled, SweepAt, Inv, P.Review;
    var w, s := run[last - 1], steps[last - 1];
    assert Enabled(w, s) && run[last] == Apply(w, s);
    if first == last - 1 {
      InvRun(run, steps, first);
      OpensInTime(w, s, id);
    } else {
      HeldSince(run, steps, first, last - 1, id);
      HeldLock(w, s);
      if id in w.tables.ended {
        StepKeepsEnded(w, s, id);
      }
    }
  }

  lemma OpensInTime(w: World, s: Step, id: Id)
    requires Inv(w) && Enabled(w, s) && s.OpenDecide?
    ensures Apply(w, s).lock.Deciding? && InTime(Apply(w, s), s.at, w.dead, id)
  {
    hide Fits, Safe, Sweep;
    SweptIsInTime(w, s.at, id);
  }

  /** In every run, a request that the answer of a review approves or denies had not expired at the time the
      review read, and its process was alive, when the review swept the tables. */
  lemma AnswersAreInTime(run: seq<World>, steps: seq<Step>, first: nat, last: nat, id: Id)
    requires IsRun(run, steps) && first < last < |steps| && steps[first].OpenDecide? && steps[last].CloseDecide?
    requires forall i | first < i < last :: !steps[i].CloseDecide?
    requires id in run[last].pending && !run[last].pending[id].decision.IsSet()
    requires id in run[last + 1].pending && run[last + 1].pending[id].decision.outcome in {Approved, Denied}
    ensures var r := run[last].pending[id].request;
            r.expiresAt > steps[first].at && r.process !in run[first].dead
  {
    hide Apply, Enabled, Inv, InTime, P.Review;
    HeldSince(run, steps, first, last, id);
    InvRun(run, steps, last);
    assert Enabled(run[last], steps[last]) && run[last + 1] == Apply(run[last], steps[last]);
    AnsweredIsLive(run[last], steps[last], id);
    LiveInTime(run[last], steps[first].at, run[first].dead, id);
  }

  lemma AnsweredIsLive(w: World, s: Step, id: Id)
    requires Enabled(w, s) && s.CloseDecide? && id in w.pending && !w.pending[id].decision.IsSet()
    requires id in Apply(w, s).pending && Apply(w, s).pending[id].decision.outcome in {Approved, Denied}
    ensures id !in w.tables.ended
  {
    CloseEffect(w, s.leaseId);
    assert Apply(w, s) == Close(w, s.leaseId);
    hide Close, P.Review;
    if id in w.tables.ended {
      var Deciding(at, target, outcome, scope, uid) := w.lock;
      EndedIsNotAnswered(w.pending, w.tables.ended, id, target, outcome, scope, uid);
    }
  }

  lemma LiveInTime(w: World, at: Time, dead: set<Identity>, id: Id)
    requires Inv(w) && InTime(w, at, dead, id) && id in w.pending && id !in w.tables.ended
    ensures w.pending[id].request.expiresAt > at && w.pending[id].request.process !in dead
  {
    PendingFits(w);
    assert RequestFits(w, id);
  }
}

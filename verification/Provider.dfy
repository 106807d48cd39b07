/**
 The manual decision provider (internal/approval/provider.go): a table of requests that wait for
 an approver, and the decisions written into it.

 Functions say what each critical section does to the table; the class further down does it step
 by step, with the loops of the code, and is proved equal to them.
 */
module Provider {
  import opened Wrappers
  import opened Approval
  import opened Listings

  /** Why a request context has ended. */
  datatype ContextError = Canceled | DeadlineExceeded

  /** The request contexts that have ended, by request; a context that is not listed is live. */
  type Contexts = map<Id, ContextError>

  /** Cancels contexts; one that has already ended keeps its first error. */
  function Cancel(ended: Contexts, ids: set<Id>): Contexts {
    (map id | id in ids :: Canceled) + ended
  }

  /** A waiting request; `done` is the state of the channel its waiter listens to. */
  datatype Item = Item(request: Request, decision: Decision, done: bool)

  type Table = map<Id, Item>

  datatype Reviewed = Reviewed(request: Request, decision: Decision)

  const MANUAL := "manual"

  function Principal(uid: nat): string {
    "uid:" + Decimal(uid)
  }

  function ManualDecision(outcome: Outcome, scope: Scope, uid: nat): Decision {
    Decision(outcome, scope, MANUAL, Principal(uid), uid)
  }

  function EndDecision(error: ContextError): Decision {
    UNSET.(outcome := if error == DeadlineExceeded then Expired else Cancelled)
  }

  function Finish(item: Item, decision: Decision): Item {
    if item.decision.IsSet() then item else item.(decision := decision, done := true)
  }

  function PruneItem(item: Item, id: Id, ended: Contexts): Item {
    if id in ended then Finish(item, EndDecision(ended[id])) else item
  }

  /** Every item whose context has ended is decided by that ending. */
  function Prune(pending: Table, ended: Contexts): Table {
    map id | id in pending :: PruneItem(pending[id], id, ended)
  }

  /** The approver's answer with the scope the provider really uses: a denial is for one command. */
  function EffectiveScope(outcome: Outcome, scope: Scope): Scope {
    if outcome == Denied then CommandScope else scope
  }

  function Answer(pending: Table, target: Request, decision: Decision): Table {
    map id | id in pending ::
      if Covers(decision.scope, target, pending[id].request) then Finish(pending[id], decision) else pending[id]
  }

  /** An approver's answer: the new table, and the answered request or an error. */
  function Review(pending: Table, ended: Contexts, id: Id, outcome: Outcome, scope: Scope, uid: nat)
    : (Table, Result<Reviewed, ErrorCode>)
  {
    if outcome !in {Approved, Denied} then (pending, Failure(InvalidDecision))
    else if scope !in {CommandScope, MessageScope, SessionScope} then (pending, Failure(InvalidScope))
    else
      var swept := Prune(pending, ended);
      if id !in swept || swept[id].decision.IsSet() then (swept, Failure(NotFound))
      else
        var decision := ManualDecision(outcome, EffectiveScope(outcome, scope), uid);
        (Answer(swept, swept[id].request, decision), Success(Reviewed(swept[id].request, decision)))
  }

  // The critical sections of `Decide`.

  /** First section: the request is queued, unless its identifier is. */
  function Enqueued(pending: Table, request: Request): (Table, bool) {
    if request.id in pending then (pending, false) else (pending[request.id := Item(request, UNSET, false)], true)
  }

  /** Section of a waiter that saw its context end. */
  function Settled(pending: Table, ended: Contexts, id: Id): Table
    requires id in pending
  {
    pending[id := PruneItem(pending[id], id, ended)]
  }

  /** Last section: what was decided, and the queue without the entry. */
  function Collected(pending: Table, id: Id): (Table, Decision)
    requires id in pending
  {
    (pending - {id}, pending[id].decision)
  }

  function Requests(pending: Table): map<Id, Request> {
    map id | id in pending :: pending[id].request
  }

  /** What every reachable table satisfies: entries sit under their own request ID, and the channel
      of an entry is closed exactly when its decision has been written. */
  predicate WellFormed(pending: Table) {
    forall id | id in pending :: pending[id].request.id == id && (pending[id].done <==> pending[id].decision.IsSet())
  }

  /** A request whose context ends while it waits is queued, settled and collected with the outcome of
      that ending, whatever is done to other entries meanwhile, and leaves the queue as it would be
      without it. */
  lemma EndedRequestLeavesNoTrace(pending: Table, request: Request, ended: Contexts, meanwhile: Table)
    requires request.id !in pending && request.id in ended && request.id !in meanwhile
    ensures var (queue, queued) := Enqueued(pending, request);
            && queued && queue - {request.id} == pending
            && var (rest, decision) := Collected(Settled(meanwhile[request.id := queue[request.id]], ended, request.id), request.id);
               && rest == meanwhile && decision.outcome == match ended[request.id] case DeadlineExceeded => Expired case Canceled => Cancelled
  {
    assert pending[request.id := Item(request, UNSET, false)] - {request.id} == pending;
    var item := PruneItem(Item(request, UNSET, false), request.id, ended);
    var queue := meanwhile[request.id := Item(request, UNSET, false)];
    assert queue[request.id := item] - {request.id} == meanwhile;
  }

  lemma ReviewSucceeds(pending: Table, ended: Contexts, id: Id, outcome: Outcome, scope: Scope, uid: nat)
    requires WellFormed(pending)
    requires Review(pending, ended, id, outcome, scope, uid).1.Success?
    ensures var (after, answer) := Review(pending, ended, id, outcome, scope, uid);
            && id in pending && id !in ended && !pending[id].decision.IsSet()
            && answer.value.request == pending[id].request && answer.value.decision.Valid()
            && answer.value.decision == ManualDecision(outcome, EffectiveScope(outcome, scope), uid)
            && after == Answer(Prune(pending, ended), pending[id].request, answer.value.decision)
  {
    hide Answer;
    assert Prune(pending, ended)[id] == PruneItem(pending[id], id, ended);
  }

  /** What becomes of one entry in a review. */
  lemma ReviewedItem(pending: Table, ended: Contexts, target: Request, decision: Decision, k: Id)
    requires k in pending && (pending[k].done <==> pending[k].decision.IsSet()) && decision.IsSet()
    ensures var after := Answer(Prune(pending, ended), target, decision);
            && k in after && after[k].request == pending[k].request
            && (after[k].done <==> after[k].decision.IsSet())
            && (pending[k].decision.IsSet() ==> after[k] == pending[k])
            && (!pending[k].decision.IsSet() ==>
                 (after[k].decision.IsSet() <==> k in ended || Covers(decision.scope, target, pending[k].request)))
            && (!pending[k].decision.IsSet() && k in ended ==> after[k].decision == EndDecision(ended[k]))
            && (!pending[k].decision.IsSet() && k !in ended && after[k].decision.IsSet() ==> after[k].decision == decision)
  {
    hide Covers;
    assert Prune(pending, ended)[k] == PruneItem(pending[k], k, ended);
  }

  /** A successful review decides exactly the live, undecided requests that its scope covers, closes
      exactly their channels, and leaves every other request to its own context. */
  lemma ReviewIsExact(pending: Table, ended: Contexts, id: Id, outcome: Outcome, scope: Scope, uid: nat)
    requires WellFormed(pending)
    requires Review(pending, ended, id, outcome, scope, uid).1.Success?
    ensures var (after, answer) := Review(pending, ended, id, outcome, scope, uid);
            var target := answer.value.request;
            && after.Keys == pending.Keys && WellFormed(after)
            && id in pending && target == pending[id].request && id !in ended && !pending[id].decision.IsSet()
            && answer.value.decision.Valid()
            && after[id].decision == answer.value.decision
            && forall k | k in pending ::
                 && after[k].request == pending[k].request
                 && (pending[k].decision.IsSet() ==> after[k] == pending[k])
                 && (!pending[k].decision.IsSet() ==>
                      (after[k].decision.IsSet() <==>
                         k in ended || Covers(answer.value.decision.scope, target, pending[k].request)))
                 && (!pending[k].decision.IsSet() && k in ended ==> after[k].decision == EndDecision(ended[k]))
                 && (!pending[k].decision.IsSet() && k !in ended && after[k].decision.IsSet() ==>
                      after[k].decision == answer.value.decision)
  {
    ReviewSucceeds(pending, ended, id, outcome, scope, uid);
    var (after, answer) := Review(pending, ended, id, outcome, scope, uid);
    var decision := answer.value.decision;
    assert after.Keys == pending.Keys;
    assert Covers(decision.scope, pending[id].request, pending[id].request);
    hide Review, Answer, Prune, Covers, EndDecision, ManualDecision, EffectiveScope;
    forall k | k in pending
      ensures after[k].request == pending[k].request
      ensures after[k].done <==> after[k].decision.IsSet()
      ensures pending[k].decision.IsSet() ==> after[k] == pending[k]
      ensures !pending[k].decision.IsSet() ==>
                (after[k].decision.IsSet() <==> k in ended || Covers(decision.scope, pending[id].request, pending[k].request))
      ensures !pending[k].decision.IsSet() && k in ended ==> after[k].decision == EndDecision(ended[k])
      ensures !pending[k].decision.IsSet() && k !in ended && after[k].decision.IsSet() ==> after[k].decision == decision
    {
      ReviewedItem(pending, ended, pending[id].request, decision, k);
    }
  }

  /** What a review answers, and when: malformed answers first, then a target that is missing, decided or
      ended; else the target with the decision of a local human, which for a denial is for one command. */
  lemma ReviewReports(pending: Table, ended: Contexts, id: Id, outcome: Outcome, scope: Scope, uid: nat)
    ensures Review(pending, ended, id, outcome, scope, uid).1 ==
            if outcome != Approved && outcome != Denied then Failure(InvalidDecision)
            else if scope == NoScope || scope.UnknownScope? then Failure(InvalidScope)
            else if id !in pending || pending[id].decision.outcome != Undecided || id in ended then Failure(NotFound)
            else Success(Reviewed(pending[id].request,
              Decision(outcome, if outcome == Denied then CommandScope else scope, "manual", "uid:" + Decimal(uid), uid)))
  {
    hide Answer, Decimal;
    if id in pending {
      assert Prune(pending, ended)[id] == PruneItem(pending[id], id, ended);
    }
  }

  /** What a successful review makes of each entry: a decided one keeps its decision; one whose context has
      ended gets the outcome of that ending; the target gets the answer, and so does, if the approval is for
      a message or a session, every request of the same process, session and, for a message, turn; any
      other stays undecided. */
  lemma ReviewResolves(pending: Table, ended: Contexts, id: Id, outcome: Outcome, scope: Scope, uid: nat, k: Id)
    requires WellFormed(pending) && k in pending
    requires Review(pending, ended, id, outcome, scope, uid).1.Success?
    ensures var (after, answer) := Review(pending, ended, id, outcome, scope, uid);
            && id in pending && k in after
            && var (r, target) := (pending[k].request, pending[id].request);
               if pending[k].decision.outcome != Undecided then after[k] == pending[k]
               else if k in ended then
                 && after[k].done && after[k].request == r
                 && after[k].decision.outcome == match ended[k] case DeadlineExceeded => Expired case Canceled => Cancelled
               else if k == id || (outcome == Approved && scope != CommandScope
                                   && r.process == target.process && r.sessionId == target.sessionId
                                   && (scope == SessionScope || r.turn == target.turn)) then
                 after[k] == Item(r, answer.value.decision, true)
               else after[k] == pending[k]
  {
    ReviewSucceeds(pending, ended, id, outcome, scope, uid);
    hide Review, Decimal;
    assert Prune(pending, ended)[k] == PruneItem(pending[k], k, ended);
  }

  /** A sweep of the queue closes exactly the undecided requests whose context has ended, each with the
      outcome of that ending. */
  lemma SweepDecides(pending: Table, ended: Contexts, k: Id)
    requires k in pending
    ensures var after := Prune(pending, ended);
            && after.Keys == pending.Keys && after[k].request == pending[k].request
            && if pending[k].decision.outcome == Undecided && k in ended then
                 after[k].done && after[k].decision.outcome == match ended[k] case DeadlineExceeded => Expired case Canceled => Cancelled
               else after[k] == pending[k]
  {
  }

  /** A context that has ended keeps the reason for which it ended first. */
  lemma FirstReasonStays(ended: Contexts, ids: set<Id>, id: Id)
    ensures id in Cancel(ended, ids) <==> id in ended || id in ids
    ensures id in Cancel(ended, ids) ==> Cancel(ended, ids)[id] == if id in ended then ended[id] else Canceled
  {
  }

  /** A refused review answers nothing: it only closes requests whose context has ended. */
  lemma RefusedReviewAnswersNothing(pending: Table, ended: Contexts, id: Id, outcome: Outcome, scope: Scope, uid: nat)
    requires Review(pending, ended, id, outcome, scope, uid).1.Failure?
    ensures var after := Review(pending, ended, id, outcome, scope, uid).0;
            && (after == pending || after == Prune(pending, ended))
            && (outcome in {Approved, Denied} && scope in {CommandScope, MessageScope, SessionScope} ==>
                  id !in pending || pending[id].decision.IsSet() || id in ended)
  {
  }

  /** The contexts that broker and provider share: the broker cancels, the provider looks. */
  class ContextTable {
    var ended: Contexts

    constructor ()
      ensures ended == map[]
    {
      ended := map[];
    }

    method CancelContext(id: Id)
      modifies this
      ensures ended == Cancel(old(ended), {id})
    {
      if id !in ended {
        ended := ended[id := Canceled];
      }
    }
  }

  class ManualProvider {
    var pending: Table
    const contexts: ContextTable

    predicate Valid()
      reads this
    {
      WellFormed(pending)
    }

    constructor (contexts: ContextTable)
      ensures Valid() && pending == map[] && this.contexts == contexts
    {
      this.contexts := contexts;
      pending := map[];
    }

    /** Writes a decision at most once and closes the channel with it; the assertion is the reason
        why the channel is never closed twice, which would stop the program. */
    method FinishLocked(id: Id, decision: Decision)
      requires Valid() && id in pending && decision.IsSet()
      modifies this`pending
      ensures Valid() && pending == old(pending)[id := Finish(old(pending)[id], decision)]
    {
      var item := pending[id];
      if item.decision.IsSet() {
        return;
      }
      assert !item.done;
      pending := pending[id := item.(decision := decision, done := true)];
    }

    method PruneLocked()
      requires Valid()
      modifies this`pending
      ensures Valid() && pending == Prune(old(pending), contexts.ended)
    {
      var todo := pending.Keys;
      while todo != {}
        invariant Valid() && todo <= pending.Keys == old(pending).Keys
        invariant forall id | id in pending ::
                    pending[id] == if id in todo then old(pending)[id] else PruneItem(old(pending)[id], id, contexts.ended)
      {
        var id :| id in todo;
        todo := todo - {id};
        if !pending[id].decision.IsSet() && id in contexts.ended {
          FinishLocked(id, EndDecision(contexts.ended[id]));
        }
      }
    }

    /** First critical section of `Decide`: queue the request, unless its ID is already queued. */
    method Register(request: Request) returns (queued: bool)
      requires Valid()
      modifies this`pending
      ensures Valid() && (pending, queued) == Enqueued(old(pending), request)
    {
      queued := request.id !in pending;
      if queued {
        pending := pending[request.id := Item(request, UNSET, false)];
      }
    }

    /** Critical section of a waiter that saw its context end. */
    method Settle(id: Id)
      requires Valid() && id in pending && id in contexts.ended
      modifies this`pending
      ensures Valid() && pending == Settled(old(pending), contexts.ended, id)
    {
      if !pending[id].decision.IsSet() {
        var outcome := if contexts.ended[id] == DeadlineExceeded then Expired else Cancelled;
        FinishLocked(id, UNSET.(outcome := outcome));
      }
    }

    /** Last critical section of `Decide`: take the entry out and return what was decided. */
    method Collect(id: Id) returns (decision: Decision)
      requires Valid() && id in pending
      modifies this`pending
      ensures Valid() && (pending, decision) == Collected(old(pending), id)
    {
      decision := pending[id].decision;
      pending := pending - {id};
    }

    /** `Pending`: every queued request, also those that are decided and whose waiter has not come yet. */
    method ListPending() returns (listed: seq<Request>, ghost ids: seq<Id>)
      requires Valid()
      modifies this`pending
      ensures Valid() && pending == Prune(old(pending), contexts.ended)
      ensures Lists(Requests(old(pending)), old(pending).Keys, ids, listed) && InOrder(listed, (r: Request) => r.createdAt)
    {
      PruneLocked();
      var requests := map id | id in pending :: pending[id].request;
      assert requests == Requests(old(pending));
      listed, ids := SortedByTime(requests, (r: Request) => r.createdAt);
    }

    /** The end of `Review`: one answer for the target, or for everything its scope covers. */
    method AnswerLocked(target: Request, decision: Decision)
      requires Valid() && target.id in pending && pending[target.id].request == target
      requires decision.Valid() && decision.outcome in {Approved, Denied}
      modifies this`pending
      ensures Valid() && pending == Answer(old(pending), target, decision)
    {
      if decision.outcome == Approved && (decision.scope == MessageScope || decision.scope == SessionScope) {
        ghost var swept := pending;
        var todo := pending.Keys;
        while todo != {}
          invariant Valid() && todo <= pending.Keys == swept.Keys
          invariant forall id | id in pending ::
                      pending[id] == if id !in todo && Covers(decision.scope, target, swept[id].request)
                                     then Finish(swept[id], decision) else swept[id]
        {
          var id :| id in todo;
          todo := todo - {id};
          var request := pending[id].request;
          var sameContext := request.process == target.process && request.sessionId == target.sessionId &&
                             (decision.scope == SessionScope || request.turn == target.turn);
          if sameContext {
            FinishLocked(id, decision);
          }
        }
      } else {
        FinishLocked(target.id, decision);
      }
    }

    method ReviewRequest(requestId: Id, outcome: Outcome, requestedScope: Scope, approverUid: nat)
      returns (answer: Result<Reviewed, ErrorCode>)
      requires Valid()
      modifies this`pending
      ensures Valid()
      ensures (pending, answer) == Review(old(pending), contexts.ended, requestId, outcome, requestedScope, approverUid)
    {
      if outcome != Approved && outcome != Denied {
        return Failure(InvalidDecision);
      }
      if requestedScope != CommandScope && requestedScope != MessageScope && requestedScope != SessionScope {
        return Failure(InvalidScope);
      }
      var scope := requestedScope;
      if outcome == Denied {
        scope := CommandScope;
      }
      PruneLocked();
      if requestId !in pending || pending[requestId].decision.IsSet() {
        return Failure(NotFound);
      }
      var target := pending[requestId].request;
      var decision := Decision(outcome, scope, MANUAL, Principal(approverUid), approverUid);
      AnswerLocked(target, decision);
      answer := Success(Reviewed(target, decision));
    }
  }
}

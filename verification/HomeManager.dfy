/**
 The walk as the code performs it: reading and writing one attribute at a time, where any write may be
 refused and the process may be stopped at any moment.  Every method is proved to do what its plan says,
 as far as it gets.
 */
module HomeManagers {
  import opened Wrappers
  import opened Acl
  import opened AclCodec
  import opened AclValues
  import opened HomeTree
  import opened HomeWalk
  import opened HomeNode
  import opened HomeCrash
  import opened HomeOutcomes

  /** From one store to another by a plan, with the outcomes of attempts to write that lie ahead before
      and after; `done` says that the plan went through. */
  predicate Ran(s0: Store, left0: seq<Outcome>, uid: u32, p: Plan<Write>, s1: Store, left1: seq<Outcome>, done: bool) {
    && s1 == PerformAll(s0, uid, Performed(left0, p.writes))
    && (done <==> p.ok && Left(left0, p.writes).Some?)
    && (done ==> left1 == Left(left0, p.writes).value)
  }

  lemma {:induction false} PerformAppend(s: Store, uid: u32, a: seq<Write>, b: seq<Write>)
    ensures PerformAll(s, uid, a + b) == PerformAll(PerformAll(s, uid, a), uid, b)
    decreases |a|
  {
    hide Perform;
    if a == [] {
      assert [] + b == b;
    } else {
      assert (a + b)[1..] == a[1..] + b;
      PerformAppend(Perform(s, uid, a[0]), uid, a[1..], b);
    }
  }

  lemma RanNothing(s: Store, left: seq<Outcome>, uid: u32, ok: bool)
    ensures Ran(s, left, uid, Plan([], ok), s, left, ok)
  {
  }

  /** One plan after another. */
  lemma RanThen(s0: Store, left0: seq<Outcome>, uid: u32, p: Plan<Write>, s1: Store, left1: seq<Outcome>, q: Plan<Write>, s2: Store, left2: seq<Outcome>, done: bool)
    requires Ran(s0, left0, uid, p, s1, left1, true) && Ran(s1, left1, uid, q, s2, left2, done)
    ensures Ran(s0, left0, uid, Then(p, q), s2, left2, done)
  {
    hide PerformAll, Performed, Left;
    PerformedAppend(left0, p.writes, q.writes);
    PerformAppend(s0, uid, Performed(left0, p.writes), Performed(left1, q.writes));
  }

  /** A plan that did not go through is the end of it. */
  lemma RanStops(s0: Store, left0: seq<Outcome>, uid: u32, p: Plan<Write>, s1: Store, left1: seq<Outcome>, q: Plan<Write>)
    requires Ran(s0, left0, uid, p, s1, left1, false)
    ensures Ran(s0, left0, uid, Then(p, q), s1, left1, false)
  {
    hide PerformAll, Performed, Left;
    PerformedAppend(left0, p.writes, q.writes);
  }

  /** What a plan does not write to stays as it was. */
  lemma RanElsewhere(s0: Store, left0: seq<Outcome>, uid: u32, p: Plan<Write>, s1: Store, left1: seq<Outcome>, done: bool, n: NodeId)
    requires Ran(s0, left0, uid, p, s1, left1, done) && Of(p.writes, n) == []
    ensures At(s1, n) == At(s0, n)
  {
    hide PerformAll, Performed, Left, Of;
    AtAfter(s0, uid, Performed(left0, p.writes), n);
    PerformedFrom(left0, p.writes, n);
  }

  // Plans and the attributes they depend on.

  lemma {:induction false} WritesToAppend(id: NodeId, a: seq<Change>, b: seq<Change>)
    ensures WritesTo(id, a + b) == WritesTo(id, a) + WritesTo(id, b)
  {
    if a == [] {
      assert [] + b == b;
    } else {
      assert (a + b)[1..] == a[1..] + b;
      WritesToAppend(id, a[1..], b);
    }
  }

  lemma LiftThen(id: NodeId, p: Plan<Change>, q: Plan<Change>)
    ensures Lift(id, Then(p, q)) == Then(Lift(id, p), Lift(id, q))
  {
    WritesToAppend(id, p.writes, q.writes);
  }

  lemma SameNodePlan(t: Tree, x: Attrs, y: Attrs, action: Action, uid: u32)
    requires SameLists(x, y)
    ensures NodePlan(t, x, action, uid) == NodePlan(t, y, action, uid)
  {
    hide GrantUser, RevokeUser, Encode, Parse, BaseACL, Base, Required, HasNamedEntries;
  }

  /** The walk depends only on the lists and creation markers of the nodes it may visit. */
  lemma {:induction false} SameWalk(s: Store, r: Store, t: Tree, device: nat, action: Action, uid: u32)
    requires forall n | n in Ids(t) :: SameLists(At(s, n), At(r, n))
    ensures WalkPlan(s, t, device, action, uid) == WalkPlan(r, t, device, action, uid)
    decreases t, 1
  {
    hide NodePlan, At, SameLists, Lift;
    assert t.id in Ids(t);
    SameNodePlan(t, At(s, t.id), At(r, t.id), action, uid);
    SameWalkAll(s, r, t.children, device, action, uid);
  }

  lemma {:induction false} SameWalkAll(s: Store, r: Store, ts: seq<Tree>, device: nat, action: Action, uid: u32)
    requires forall n | n in IdsOf(ts) :: SameLists(At(s, n), At(r, n))
    ensures WalkChildren(s, ts, device, action, uid) == WalkChildren(r, ts, device, action, uid)
    decreases ts, 0
  {
    hide At, SameLists;
    if ts != [] {
      SameWalk(s, r, ts[0], device, action, uid);
      SameWalkAll(s, r, ts[1..], device, action, uid);
    }
  }

  function ChildPlan(s: Store, t: Tree, device: nat, action: Action, uid: u32): Plan<Write> {
    if Enters(t, device) then WalkPlan(s, t, device, action, uid) else Plan([], true)
  }

  lemma ThenAssociates<T>(p: Plan<T>, q: Plan<T>, r: Plan<T>)
    ensures Then(Then(p, q), r) == Then(p, Then(q, r))
  {
    assert (p.writes + q.writes) + r.writes == p.writes + (q.writes + r.writes);
  }

  lemma ThenNothing<T>(p: Plan<T>)
    ensures Then(p, Plan([], true)) == p && Then(Plan([], true), p) == p
  {
    assert p.writes + [] == p.writes && [] + p.writes == p.writes;
  }

  /** The walk over some children and one more. */
  lemma {:induction false} WalkSnoc(s: Store, ts: seq<Tree>, i: nat, device: nat, action: Action, uid: u32)
    requires i < |ts|
    ensures WalkChildren(s, ts[..i + 1], device, action, uid)
         == Then(WalkChildren(s, ts[..i], device, action, uid), ChildPlan(s, ts[i], device, action, uid))
    decreases i
  {
    hide WalkPlan, Then;
    var more := ts[..i + 1];
    if i == 0 {
      assert more[1..] == [] && ts[..0] == [];
      ThenNothing(ChildPlan(s, ts[0], device, action, uid));
    } else {
      WalkSnoc(s, ts[1..], i - 1, device, action, uid);
      assert more[1..] == ts[1..][..i] && ts[..i][1..] == ts[1..][..i - 1] && ts[1..][i - 1] == ts[i];
      ThenAssociates(ChildPlan(s, ts[0], device, action, uid),
                     WalkChildren(s, ts[1..][..i - 1], device, action, uid),
                     ChildPlan(s, ts[i], device, action, uid));
    }
  }

  /** Siblings share no node. */
  lemma {:induction false} SiblingsApart(ts: seq<Tree>, i: nat)
    requires SimpleAll(ts) && i < |ts|
    ensures Simple(ts[i]) && Ids(ts[i]) !! IdsOf(ts[..i]) && Ids(ts[i]) <= IdsOf(ts)
    decreases i
  {
    if i > 0 {
      SiblingsApart(ts[1..], i - 1);
      assert ts[..i][1..] == ts[1..][..i - 1];
    }
  }

  /** When the walk comes to a child, that part of the tree is as it was in the beginning. */
  lemma ChildAsBefore(s0: Store, left0: seq<Outcome>, uid: u32, t: Tree, i: nat, device: nat, action: Action, s1: Store, left1: seq<Outcome>)
    requires Simple(t) && i < |t.children|
    requires Ran(s0, left0, uid, Then(Lift(t.id, NodePlan(t, At(s0, t.id), action, uid)), WalkChildren(s0, t.children[..i], device, action, uid)),
                 s1, left1, true)
    ensures Simple(t.children[i]) && ChildPlan(s1, t.children[i], device, action, uid) == ChildPlan(s0, t.children[i], device, action, uid)
  {
    hide Ran, NodePlan, WalkChildren, WalkPlan, Covered, CoveredAll;
    var ts := t.children;
    SiblingsApart(ts, i);
    var own, before := NodePlan(t, At(s0, t.id), action, uid), WalkChildren(s0, ts[..i], device, action, uid);
    forall n | n in Ids(ts[i]) ensures At(s1, n) == At(s0, n) {
      OfThen(Lift(t.id, own), before, n);
      OfWritesTo(t.id, own.writes, n);
      forall x | x in CoveredAll(ts[..i], device) ensures x.id != n {
        CoveredAllInside(ts[..i], device, x);
      }
      WalkElsewhereAll(s0, ts[..i], device, action, uid, n);
      RanElsewhere(s0, left0, uid, Then(Lift(t.id, own), before), s1, left1, true, n);
    }
    SameWalk(s1, s0, ts[i], device, action, uid);
  }

  class HomeManager {
    const uid: u32
    var store: Store
    /** The outcomes of the attempts to write that lie ahead; after them the process is stopped. */
    var left: seq<Outcome>

    constructor (uid: u32, store: Store, left: seq<Outcome>)
      ensures this.uid == uid && this.store == store && this.left == left
    {
      this.uid, this.store, this.left := uid, store, left;
    }

    /** One attempt to set or remove an attribute; no result if the process is stopped. */
    method Attempt(id: NodeId, change: Change) returns (outcome: Option<Outcome>)
      modifies this
      ensures outcome == if old(left) == [] then None else Some(old(left)[0])
      ensures left == if old(left) == [] then [] else old(left)[1..]
      ensures store == if outcome == Some(Written) then Perform(old(store), uid, Write(id, change)) else old(store)
    {
      if left == [] {
        return None;
      }
      outcome := Some(left[0]);
      if left[0] == Written {
        store := Perform(store, uid, Write(id, change));
      }
      left := left[1..];
    }

    /** A write whose error ends the call. */
    method Put(id: NodeId, change: Change) returns (done: bool)
      requires !change.DropCreated? && !change.CreateDefault?
      modifies this
      ensures Ran(old(store), old(left), uid, Lift(id, Plan([change], true)), store, left, done)
    {
      OneWrite(id, change);
      OneAttempt(old(store), uid, old(left), Write(id, change));
      var outcome := Attempt(id, change);
      done := outcome == Some(Written);
    }

    /** The removal of a creation marker, whose error is ignored. */
    method DropMarker(id: NodeId) returns (done: bool)
      modifies this
      ensures Ran(old(store), old(left), uid, Lift(id, Plan([DropCreated], true)), store, left, done)
    {
      OneWrite(id, DropCreated);
      OneAttempt(old(store), uid, old(left), Write(id, DropCreated));
      var outcome := Attempt(id, DropCreated);
      done := outcome.Some?;
    }

    /** A new default list, just marked; if it cannot be written, its marker is taken back. */
    method PutNewDefault(id: NodeId, data: Bytes) returns (done: bool)
      modifies this
      ensures Ran(old(store), old(left), uid, Lift(id, Plan([CreateDefault(data)], true)), store, left, done)
    {
      OneWrite(id, CreateDefault(data));
      OneAttempt(old(store), uid, old(left), Write(id, CreateDefault(data)));
      var outcome := Attempt(id, CreateDefault(data));
      done := outcome == Some(Written);
      if outcome == Some(Refused) {
        OneAttempt(store, uid, left, Write(id, DropCreated));
        var ignored := Attempt(id, DropCreated);
      }
    }

    method ReadACL(data: Option<Bytes>, missing: Entries) returns (result: Result<Entries, ParseError>)
      ensures result == Read(data, missing)
    {
      if data.None? {
        return Success(missing);
      }
      result := ParseACL(data.value);
    }

    /** A list with the user granted, as bytes. */
    method Granting(a: Entries, perm: u16) returns (data: Bytes)
      ensures data == Encode(GrantUser(a, uid, perm))
    {
      var value := new AclValue(a);
      value.Grant(uid, perm);
      var bytes := value.EncodeBytes();
      data := bytes[..];
    }

    method GrantDefaultACL(t: Tree, base: Entries) returns (done: bool)
      modifies this
      ensures Ran(old(store), old(left), uid, Lift(t.id, GrantDefault(At(old(store), t.id), uid, base)), store, left, done)
    {
      hide Ran, Encode, GrantUser, Parse, DoAll, PerformAll;
      var x := At(store, t.id);
      ghost var s0, left0 := store, left;
      var value := ReadACL(x.default_, base);
      if value.Failure? {
        RanNothing(store, left, uid, false);
        return false;
      }
      if x.default_.None? {
        ghost var mark := Plan([MarkCreated], true);
        ghost var write := Plan([CreateDefault(Encode(GrantUser(value.value, uid, 7)))], true);
        assert Then(mark, write) == Plan([MarkCreated, CreateDefault(Encode(GrantUser(value.value, uid, 7)))], true);
        LiftThen(t.id, mark, write);
        done := Put(t.id, MarkCreated);
        if !done {
          RanStops(s0, left0, uid, Lift(t.id, mark), store, left, Lift(t.id, write));
          return;
        }
        ghost var s1, left1 := store, left;
        var data := Granting(value.value, 7);
        done := PutNewDefault(t.id, data);
        RanThen(s0, left0, uid, Lift(t.id, mark), s1, left1, Lift(t.id, write), store, left, done);
      } else {
        var data := Granting(value.value, 7);
        done := Put(t.id, SetDefault(data));
      }
    }

    method Drop(id: NodeId) returns (done: bool)
      modifies this
      ensures Ran(old(store), old(left), uid, Lift(id, Plan([DropDefault, DropCreated], true)), store, left, done)
    {
      hide Ran, PerformAll;
      ghost var s0, left0 := store, left;
      ghost var first, second := Plan([DropDefault], true), Plan([DropCreated], true);
      assert Then(first, second) == Plan([DropDefault, DropCreated], true);
      LiftThen(id, first, second);
      done := Put(id, DropDefault);
      if !done {
        RanStops(s0, left0, uid, Lift(id, first), store, left, Lift(id, second));
        return;
      }
      ghost var s1, left1 := store, left;
      done := DropMarker(id);
      RanThen(s0, left0, uid, Lift(id, first), s1, left1, Lift(id, second), store, left, done);
    }

    method RevokeDefaultACL(t: Tree) returns (done: bool)
      modifies this
      ensures Ran(old(store), old(left), uid, Lift(t.id, RevokeDefault(At(old(store), t.id), uid)), store, left, done)
    {
      hide Ran, Encode, RevokeUser, Parse, DoAll, PerformAll, HasNamedEntries;
      var x := At(store, t.id);
      if x.default_.None? {
        done := DropMarker(t.id);
        return;
      }
      var read := ParseACL(x.default_.value);
      if read.Failure? {
        RanNothing(store, left, uid, false);
        return false;
      }
      var value := new AclValue(read.value);
      var removed := value.Revoke(uid);
      var named := value.CheckNamedEntries();
      if uid in x.created && !named {
        done := Drop(t.id);
      } else if removed {
        var data := value.EncodeBytes();
        done := Put(t.id, SetDefault(data[..]));
      } else {
        RanNothing(store, left, uid, true);
        done := true;
      }
    }

    method RevokeAccessACL(t: Tree) returns (done: bool)
      modifies this
      ensures Ran(old(store), old(left), uid, Lift(t.id, RevokeAccess(t, At(old(store), t.id), uid)), store, left, done)
    {
      hide Ran, Encode, RevokeUser, Parse, DoAll, PerformAll, BaseACL;
      var read := ReadACL(At(store, t.id).access, BaseACL(t.mode));
      if read.Failure? {
        RanNothing(store, left, uid, false);
        return false;
      }
      var value := new AclValue(read.value);
      var removed := value.Revoke(uid);
      if removed {
        var data := value.EncodeBytes();
        done := Put(t.id, SetAccess(data[..]));
      } else {
        RanNothing(store, left, uid, true);
        done := true;
      }
    }

    method GrantACLs(t: Tree) returns (done: bool)
      modifies this
      ensures Ran(old(store), old(left), uid, Lift(t.id, GrantNode(t, At(old(store), t.id), uid)), store, left, done)
    {
      hide Ran, Encode, GrantUser, Parse, DoAll, PerformAll, BaseACL, Base, Required, GrantDefault, Lift;
      ghost var x := At(store, t.id);
      ghost var s0, left0 := store, left;
      var read := ReadACL(At(store, t.id).access, BaseACL(t.mode));
      if read.Failure? {
        RanNothing(store, left, uid, false);
        LiftNothing(t.id, false);
        return false;
      }
      var value := new AclValue(read.value);
      value.Grant(uid, Required(t));
      var access := value.entries;
      var data := value.EncodeBytes();
      ghost var first := Plan([SetAccess(Encode(access))], true);
      done := Put(t.id, SetAccess(data[..]));
      if !t.kind.Directory? {
        ThenNothing(first);
        return;
      }
      LiftThen(t.id, first, GrantDefault(x, uid, Base(access)));
      if !done {
        RanStops(s0, left0, uid, Lift(t.id, first), store, left, Lift(t.id, GrantDefault(x, uid, Base(access))));
        return;
      }
      ghost var s1, left1 := store, left;
      AccessSet(s0, left0, uid, t.id, Encode(access), s1, left1, Base(access));
      done := GrantDefaultACL(t, Base(access));
      RanThen(s0, left0, uid, Lift(t.id, first), s1, left1, Lift(t.id, GrantDefault(x, uid, Base(access))), store, left, done);
    }

    method RevokeACLs(t: Tree) returns (done: bool)
      modifies this
      ensures Ran(old(store), old(left), uid, Lift(t.id, RevokeNode(t, At(old(store), t.id), uid)), store, left, done)
    {
      hide Ran, DoAll, PerformAll, RevokeDefault, RevokeAccess, Lift, At;
      ghost var x := At(store, t.id);
      ghost var s0, left0 := store, left;
      ghost var first, second := RevokeDefault(x, uid), RevokeAccess(t, x, uid);
      if !t.kind.Directory? {
        ThenNothing(second);
        done := RevokeAccessACL(t);
        return;
      }
      LiftThen(t.id, first, second);
      done := RevokeDefaultACL(t);
      if !done {
        RanStops(s0, left0, uid, Lift(t.id, first), store, left, Lift(t.id, second));
        return;
      }
      ghost var s1, left1 := store, left;
      DefaultTaken(s0, left0, t, uid, s1, left1);
      done := RevokeAccessACL(t);
      RanThen(s0, left0, uid, Lift(t.id, first), s1, left1, Lift(t.id, second), store, left, done);
    }

    /** `changeACLs`: the lists of one node. */
    method ChangeACLs(t: Tree, action: Action) returns (done: bool)
      modifies this
      ensures Ran(old(store), old(left), uid, Lift(t.id, NodePlan(t, At(old(store), t.id), action, uid)), store, left, done)
    {
      hide Ran, GrantNode, RevokeNode, Lift;
      match action {
        case Grant => done := GrantACLs(t);
        case Revoke => done := RevokeACLs(t);
      }
    }

    /** `walkFD`: the node, then its children one after another. */
    method WalkFD(t: Tree, device: nat, action: Action) returns (done: bool)
      requires Simple(t)
      modifies this
      ensures Ran(old(store), old(left), uid, WalkPlan(old(store), t, device, action, uid), store, left, done)
      decreases t
    {
      hide Ran, NodePlan, WalkChildren, Lift, At, Simple, Enters;
      ghost var s0, left0 := store, left;
      ghost var own := Lift(t.id, NodePlan(t, At(s0, t.id), action, uid));
      done := ChangeACLs(t, action);
      if !t.kind.Directory? {
        ThenNothing(own);
        return;
      }
      ghost var all := WalkChildren(s0, t.children, device, action, uid);
      if !done {
        RanStops(s0, left0, uid, own, store, left, all);
        return;
      }
      var i := 0;
      NoChildren(s0, t.children, device, action, uid);
      ThenNothing(own);
      while i < |t.children|
        invariant 0 <= i <= |t.children|
        invariant Ran(s0, left0, uid, Then(own, WalkChildren(s0, t.children[..i], device, action, uid)), store, left, true)
      {
        var child := t.children[i];
        ghost var s1, left1 := store, left;
        ghost var before, next := WalkChildren(s0, t.children[..i], device, action, uid), ChildPlan(s0, child, device, action, uid);
        ChildAsBefore(s0, left0, uid, t, i, device, action, s1, left1);
        if Enters(child, device) {
          done := WalkFD(child, device, action);
        } else {
          done := true;
          RanNothing(store, left, uid, true);
        }
        hide WalkPlan;
        assert Ran(s1, left1, uid, next, store, left, done);
        WalkSnoc(s0, t.children, i, device, action, uid);
        ThenAssociates(own, before, next);
        if !done {
          StopsHere(s0, left0, uid, Then(own, before), s1, left1, next, store, left);
          RestIsNotReached(s0, left0, t, i, device, action, uid, store, left);
          return;
        }
        RanThen(s0, left0, uid, Then(own, before), s1, left1, next, store, left, true);
        i := i + 1;
      }
      assert t.children[..i] == t.children;
      done := true;
    }

    /** `platformManage`, for grants and revocations: marker, walk, marker.  The error of removing the old
        marker before a grant is ignored; every other write is handled as its plan says. */
    method Manage(home: Tree, action: Action) returns (done: bool)
      requires Simple(home)
      modifies this
      ensures !home.kind.Directory? ==> !done && store == old(store)
      ensures home.kind.Directory? ==>
                Ran(old(store), Trial(action, old(left)).Remaining(), uid,
                    ManagePlan(old(store), home, action, uid, Trial(action, old(left)).Clears()), store, left, done)
    {
      hide Ran, NodePlan, WalkPlan, At, Simple, WritesTo;
      ghost var s0, left0 := store, Trial(action, left).Remaining();
      ghost var clears := Trial(action, left).Clears();
      if !home.kind.Directory? {
        return false;
      }
      ghost var walk := WalkPlan(s0, home, home.device, action, uid);
      ghost var first := Plan(if action == Grant && clears then [Write(home.id, DropComplete)] else [], true);
      ghost var last := Plan([Write(home.id, if action == Grant then MarkComplete else DropComplete)], true);
      ThenNothing(Then(walk, last));
      assert ManagePlan(s0, home, action, uid, clears) == Then(first, Then(walk, last));
      hide ManagePlan;
      OneWrite(home.id, DropComplete);
      OneWrite(home.id, MarkComplete);
      FirstRemoval(s0, uid, home.id, action, left);
      if action == Grant {
        var outcome := Attempt(home.id, DropComplete);
        if outcome.None? {
          RanStops(s0, left0, uid, first, store, left, Then(walk, last));
          return false;
        }
      }
      ghost var s1, left1 := store, left;
      ClearedWalk(s0, left0, home, action, uid, clears, s1, left1);
      done := WalkFD(home, home.device, action);
      RanThen(s0, left0, uid, first, s1, left1, walk, store, left, done);
      ThenAssociates(first, walk, last);
      if !done {
        RanStops(s0, left0, uid, Then(first, walk), store, left, last);
        return;
      }
      ghost var s2, left2 := store, left;
      done := Put(home.id, if action == Grant then MarkComplete else DropComplete);
      RanThen(s0, left0, uid, Then(first, walk), s2, left2, last, store, left, done);
    }

    /** The state that the theorems about calls speak of: whatever is refused and wherever it is stopped, a
        call leaves what an interruption leaves, apart from creation markers. */
    method PlatformManage(home: Tree, action: Action) returns (done: bool, ghost attempt: Attempt)
      requires Simple(home)
      modifies this
      ensures store == AfterTrial(old(store), home, uid, Trial(action, old(left)))
      ensures attempt.action == action && attempt.clears == Trial(action, old(left)).Clears()
      ensures UpToCreated(After(old(store), home, uid, attempt), store)
      ensures done ==>
                var plan := ManagePlan(old(store), home, action, uid, attempt.clears); plan.ok && attempt.cut == |plan.writes|
    {
      ghost var s0, left0 := store, left;
      done := Manage(home, action);
      NoHome(s0, home, uid, Trial(action, left0));
      hide ManagePlan, UpToCreated, After;
      attempt := TrialIsAttempt(s0, home, uid, Trial(action, left0));
    }

    /** `aclStatus`. */
    method ACLStatus(home: Tree) returns (status: Status)
      ensures status == StatusOf(At(store, home.id), uid)
    {
      var x := At(store, home.id);
      var accessEnabled, defaultEnabled := false, false;
      if x.access.Some? {
        var access := ParseACL(x.access.value);
        if access.Failure? {
          return Broken;
        }
        var value := new AclValue(access.value);
        accessEnabled := value.CheckUserHas(uid, 7);
      }
      if x.default_.Some? {
        var defaults := ParseACL(x.default_.value);
        if defaults.Failure? {
          return Broken;
        }
        var value := new AclValue(defaults.value);
        defaultEnabled := value.CheckUserHas(uid, 7);
      }
      hide Parse, UserHas;
      if accessEnabled && defaultEnabled && uid in x.complete {
        return Enabled;
      }
      if accessEnabled || defaultEnabled {
        return Partial;
      }
      return Disabled;
    }
  }

  lemma OneAttempt(s: Store, uid: u32, left: seq<Outcome>, w: Write)
    ensures Performed(left, [w]) ==
            if left == [] then []
            else if left[0] == Written then [w]
            else if w.change.CreateDefault? && |left| > 1 && left[1] == Written then [Write(w.node, DropCreated)] else []
    ensures Left(left, [w]) == if left == [] || (left[0] == Refused && !w.change.DropCreated?) then None else Some(left[1..])
    ensures PerformAll(s, uid, [w]) == Perform(s, uid, w) && PerformAll(s, uid, []) == s
    ensures PerformAll(s, uid, [Write(w.node, DropCreated)]) == Perform(s, uid, Write(w.node, DropCreated))
  {
    assert [w][1..] == [] && [Write(w.node, DropCreated)][1..] == [];
    if left != [] {
      assert Performed(left[1..], []) == [] && Left(left[1..], []) == Some(left[1..]);
    }
  }

  /** The first thing a grant does. */
  lemma FirstRemoval(s: Store, uid: u32, id: NodeId, action: Action, left: seq<Outcome>)
    ensures var first := Plan(if action == Grant && Trial(action, left).Clears() then [Write(id, DropComplete)] else [], true);
            var remaining := Trial(action, left).Remaining();
            if action == Revoke then Ran(s, remaining, uid, first, s, left, true)
            else if left == [] then Ran(s, remaining, uid, first, s, left, false)
            else Ran(s, remaining, uid, first, if left[0] == Written then Perform(s, uid, Write(id, DropComplete)) else s, left[1..], true)
  {
    OneAttempt(s, uid, left, Write(id, DropComplete));
  }

  lemma NoHome(s: Store, home: Tree, uid: u32, trial: Trial)
    ensures !home.kind.Directory? ==> AfterTrial(s, home, uid, trial) == s
  {
  }

  lemma LiftNothing(id: NodeId, ok: bool)
    ensures Lift(id, Plan([], ok)) == Plan([], ok)
  {
  }

  lemma OneWrite(id: NodeId, c: Change)
    ensures Lift(id, Plan([c], true)) == Plan([Write(id, c)], true)
  {
    assert WritesTo(id, [c]) == [Write(id, c)];
  }

  lemma NoChildren(s: Store, ts: seq<Tree>, device: nat, action: Action, uid: u32)
    ensures WalkChildren(s, ts[..0], device, action, uid) == Plan([], true)
  {
  }

  /** Writing the access list leaves what the default list starts from. */
  lemma AccessSet(s0: Store, left0: seq<Outcome>, uid: u32, id: NodeId, data: Bytes, s1: Store, left1: seq<Outcome>, base: Entries)
    requires Ran(s0, left0, uid, Lift(id, Plan([SetAccess(data)], true)), s1, left1, true)
    ensures GrantDefault(At(s1, id), uid, base) == GrantDefault(At(s0, id), uid, base)
  {
    hide GrantUser, Encode, Parse;
    OneWrite(id, SetAccess(data));
    OneAttempt(s0, uid, left0, Write(id, SetAccess(data)));
  }

  /** Changing the default list leaves the access list. */
  lemma DefaultTaken(s0: Store, left0: seq<Outcome>, t: Tree, uid: u32, s1: Store, left1: seq<Outcome>)
    requires Ran(s0, left0, uid, Lift(t.id, RevokeDefault(At(s0, t.id), uid)), s1, left1, true)
    ensures RevokeAccess(t, At(s1, t.id), uid) == RevokeAccess(t, At(s0, t.id), uid)
  {
    var p := Lift(t.id, RevokeDefault(At(s0, t.id), uid));
    DefaultChanges(At(s0, t.id), uid);
    OfWritesTo(t.id, RevokeDefault(At(s0, t.id), uid).writes, t.id);
    hide RevokeDefault, RevokeUser, Encode, Parse, BaseACL, Of, Performed, PerformAll, DoAll;
    AtAfter(s0, uid, Performed(left0, p.writes), t.id);
    PerformedFrom(left0, p.writes, t.id);
    KeepsAccess(At(s0, t.id), uid, Of(Performed(left0, p.writes), t.id));
  }

  lemma DefaultChanges(x: Attrs, uid: u32)
    ensures forall c | c in RevokeDefault(x, uid).writes :: !c.SetAccess?
  {
    hide RevokeUser, Encode, Parse, HasNamedEntries;
  }

  /** Two plans, the second of which does not go through. */
  lemma StopsHere(s0: Store, left0: seq<Outcome>, uid: u32, p: Plan<Write>, s1: Store, left1: seq<Outcome>, q: Plan<Write>, s2: Store, left2: seq<Outcome>)
    requires Ran(s0, left0, uid, p, s1, left1, true) && Ran(s1, left1, uid, q, s2, left2, false)
    ensures Ran(s0, left0, uid, Then(p, q), s2, left2, false)
  {
    RanThen(s0, left0, uid, p, s1, left1, q, s2, left2, false);
  }

  /** The children after the one where the walk stopped make no difference. */
  lemma RestIsNotReached(s0: Store, left0: seq<Outcome>, t: Tree, i: nat, device: nat, action: Action, uid: u32, s: Store, left: seq<Outcome>)
    requires i < |t.children|
    requires var own := Lift(t.id, NodePlan(t, At(s0, t.id), action, uid));
             Ran(s0, left0, uid, Then(own, WalkChildren(s0, t.children[..i + 1], device, action, uid)), s, left, false)
    ensures var own := Lift(t.id, NodePlan(t, At(s0, t.id), action, uid));
            Ran(s0, left0, uid, Then(own, WalkChildren(s0, t.children, device, action, uid)), s, left, false)
  {
    hide Ran, NodePlan, WalkChildren, Then, Lift;
    var own := Lift(t.id, NodePlan(t, At(s0, t.id), action, uid));
    var some, rest := WalkChildren(s0, t.children[..i + 1], device, action, uid), WalkChildren(s0, t.children[i + 1..], device, action, uid);
    WalkSplit(s0, t.children, i + 1, device, action, uid);
    ThenAssociates(own, some, rest);
    RanStops(s0, left0, uid, Then(own, some), s, left, rest);
  }

  lemma {:induction false} WalkSplit(s: Store, ts: seq<Tree>, i: nat, device: nat, action: Action, uid: u32)
    requires i <= |ts|
    ensures WalkChildren(s, ts, device, action, uid)
         == Then(WalkChildren(s, ts[..i], device, action, uid), WalkChildren(s, ts[i..], device, action, uid))
    decreases i
  {
    hide WalkPlan, Then;
    if i == 0 {
      assert ts[..0] == [] && ts[0..] == ts;
      ThenNothing(WalkChildren(s, ts, device, action, uid));
    } else {
      WalkSplit(s, ts[1..], i - 1, device, action, uid);
      assert ts[..i][1..] == ts[1..][..i - 1] && ts[1..][i - 1..] == ts[i..] && ts[..i][0] == ts[0];
      ThenAssociates(ChildPlan(s, ts[0], device, action, uid),
                     WalkChildren(s, ts[..i][1..], device, action, uid),
                     WalkChildren(s, ts[i..], device, action, uid));
    }
  }

  /** Removing the marker changes nothing that the walk depends on. */
  lemma ClearedWalk(s0: Store, left0: seq<Outcome>, home: Tree, action: Action, uid: u32, clears: bool, s1: Store, left1: seq<Outcome>)
    requires Ran(s0, left0, uid, Plan(if action == Grant && clears then [Write(home.id, DropComplete)] else [], true), s1, left1, true)
    ensures WalkPlan(s1, home, home.device, action, uid) == WalkPlan(s0, home, home.device, action, uid)
  {
    var ws := if action == Grant && clears then [Write(home.id, DropComplete)] else [];
    OneAttempt(s0, uid, left0, Write(home.id, DropComplete));
    forall n | n in Ids(home) ensures SameLists(At(s0, n), At(s1, n)) {
    }
    SameWalk(s0, s1, home, home.device, action, uid);
  }
}

/**
 Which nodes the walk writes to, and what: exactly the boundary, each node exactly as its own
 attributes ask for, whatever the shape of the tree and wherever the walk is cut off.
 */
module HomeWalk {
  import opened Wrappers
  import opened Acl
  import opened HomeTree

  /** The changes that a list of writes makes to one node. */
  function Of(ws: seq<Write>, n: NodeId): seq<Change> {
    if ws == [] then [] else (if ws[0].node == n then [ws[0].change] else []) + Of(ws[1..], n)
  }

  /** Every node sees its own changes and no others. */
  lemma {:induction false} AtAfter(s: Store, uid: u32, ws: seq<Write>, n: NodeId)
    ensures At(PerformAll(s, uid, ws), n) == DoAll(At(s, n), uid, Of(ws, n))
    decreases |ws|
  {
    if ws != [] {
      var next, rest := Perform(s, uid, ws[0]), Of(ws[1..], n);
      AtAfter(next, uid, ws[1..], n);
      if ws[0].node == n {
        assert ([ws[0].change] + rest)[1..] == rest;
      } else {
        assert [] + rest == rest;
      }
    }
  }

  lemma {:induction false} OfAppend(a: seq<Write>, b: seq<Write>, n: NodeId)
    ensures Of(a + b, n) == Of(a, n) + Of(b, n)
    decreases |a|
  {
    if a == [] {
      assert a + b == b && Of(a, n) + Of(b, n) == Of(b, n);
    } else {
      OfAppend(a[1..], b, n);
      OfHead(a, n);
      OfHead(a + b, n);
      assert (a + b)[1..] == a[1..] + b && (a + b)[0] == a[0];
      hide Of;
      var head := if a[0].node == n then [a[0].change] else [];
      assert head + (Of(a[1..], n) + Of(b, n)) == head + Of(a[1..], n) + Of(b, n);
    }
  }

  lemma OfHead(ws: seq<Write>, n: NodeId)
    requires ws != []
    ensures Of(ws, n) == (if ws[0].node == n then [ws[0].change] else []) + Of(ws[1..], n)
  {
  }

  /** Cutting a list of writes short cuts short the changes of every node. */
  lemma OfPrefix(ws: seq<Write>, k: nat, n: NodeId)
    requires k <= |ws|
    ensures Of(ws[..k], n) <= Of(ws, n)
  {
    assert ws == ws[..k] + ws[k..];
    OfAppend(ws[..k], ws[k..], n);
  }

  lemma {:induction false} OfWritesTo(id: NodeId, changes: seq<Change>, n: NodeId)
    ensures Of(WritesTo(id, changes), n) == if n == id then changes else []
  {
    if changes != [] {
      OfWritesTo(id, changes[1..], n);
      assert WritesTo(id, changes)[1..] == WritesTo(id, changes[1..]);
    }
  }

  lemma OfThen(p: Plan<Write>, q: Plan<Write>, n: NodeId)
    ensures Of(Then(p, q).writes, n) == if p.ok then Of(p.writes, n) + Of(q.writes, n) else Of(p.writes, n)
  {
    OfAppend(p.writes, q.writes, n);
  }

  // The boundary.

  predicate InBoundary(t: Tree, device: nat, n: NodeId) {
    exists x | x in Covered(t, device) :: x.id == n
  }

  lemma {:induction false} CoveredIsInside(t: Tree, device: nat, x: Tree)
    requires x in Covered(t, device)
    ensures x.id in Ids(t)
    decreases t, 1
  {
    if x != t {
      CoveredAllInside(t.children, device, x);
    }
  }

  lemma {:induction false} CoveredAllInside(ts: seq<Tree>, device: nat, x: Tree)
    requires x in CoveredAll(ts, device)
    ensures x.id in IdsOf(ts)
    decreases ts, 0
  {
    if Enters(ts[0], device) && x in Covered(ts[0], device) {
      CoveredIsInside(ts[0], device, x);
    } else {
      CoveredAllInside(ts[1..], device, x);
    }
  }

  /** The node that a path of child positions leads to, passing only through directories and never to
      another device, another kind of file or a symbolic link. */
  function Follow(t: Tree, path: seq<nat>, device: nat): Option<Tree>
    decreases |path|
  {
    if path == [] then Some(t)
    else if !t.kind.Directory? || path[0] >= |t.children| then None
    else
      var child := t.children[path[0]];
      if child.device == device && (child.kind.Directory? || child.kind.Regular?) then Follow(child, path[1..], device) else None
  }

  /** The boundary is what can be reached through directories of one device. */
  lemma BoundaryIsReachable(t: Tree, device: nat, x: Tree)
    ensures x in Covered(t, device) <==> exists path :: Follow(t, path, device) == Some(x)
  {
    if x in Covered(t, device) {
      var path := PathTo(t, device, x);
    }
    if path :| Follow(t, path, device) == Some(x) {
      PathStays(t, device, path, x);
    }
  }

  lemma {:induction false} PathTo(t: Tree, device: nat, x: Tree) returns (path: seq<nat>)
    requires x in Covered(t, device)
    ensures Follow(t, path, device) == Some(x)
    decreases t, 1
  {
    if x == t {
      path := [];
    } else {
      var i, rest := PathAmong(t.children, device, x);
      path := [i] + rest;
      assert path[1..] == rest;
    }
  }

  lemma {:induction false} PathAmong(ts: seq<Tree>, device: nat, x: Tree) returns (i: nat, rest: seq<nat>)
    requires x in CoveredAll(ts, device)
    ensures i < |ts| && Enters(ts[i], device) && Follow(ts[i], rest, device) == Some(x)
    decreases ts, 0
  {
    if Enters(ts[0], device) && x in Covered(ts[0], device) {
      rest := PathTo(ts[0], device, x);
      i := 0;
    } else {
      i, rest := PathAmong(ts[1..], device, x);
      i := i + 1;
    }
  }

  lemma {:induction false} PathStays(t: Tree, device: nat, path: seq<nat>, x: Tree)
    requires Follow(t, path, device) == Some(x)
    ensures x in Covered(t, device)
    decreases |path|
  {
    if path != [] {
      PathStays(t.children[path[0]], device, path[1..], x);
      ChildIsCovered(t.children, path[0], device, x);
    }
  }

  lemma {:induction false} ChildIsCovered(ts: seq<Tree>, i: nat, device: nat, x: Tree)
    requires i < |ts| && Enters(ts[i], device) && x in Covered(ts[i], device)
    ensures x in CoveredAll(ts, device)
  {
    if i > 0 {
      ChildIsCovered(ts[1..], i - 1, device, x);
    }
  }

  // The walk.

  /** Outside the boundary the walk writes nothing. */
  lemma {:induction false} WalkElsewhere(s: Store, t: Tree, device: nat, action: Action, uid: u32, n: NodeId)
    requires !InBoundary(t, device, n)
    ensures Of(WalkPlan(s, t, device, action, uid).writes, n) == []
    decreases t, 1
  {
    hide NodePlan;
    var np := Lift(t.id, NodePlan(t, At(s, t.id), action, uid));
    assert t in Covered(t, device);
    OfWritesTo(t.id, NodePlan(t, At(s, t.id), action, uid).writes, n);
    if t.kind.Directory? {
      forall x | x in CoveredAll(t.children, device) ensures x.id != n {
        assert x in Covered(t, device);
      }
      WalkElsewhereAll(s, t.children, device, action, uid, n);
      OfThen(np, WalkChildren(s, t.children, device, action, uid), n);
    } else {
      OfThen(np, Plan([], true), n);
    }
  }

  lemma {:induction false} WalkElsewhereAll(s: Store, ts: seq<Tree>, device: nat, action: Action, uid: u32, n: NodeId)
    requires forall x | x in CoveredAll(ts, device) :: x.id != n
    ensures Of(WalkChildren(s, ts, device, action, uid).writes, n) == []
    decreases ts, 0
  {
    hide WalkPlan;
    if ts != [] {
      var rest := WalkChildren(s, ts[1..], device, action, uid);
      WalkElsewhereAll(s, ts[1..], device, action, uid, n);
      if Enters(ts[0], device) {
        WalkElsewhere(s, ts[0], device, action, uid, n);
        OfThen(WalkPlan(s, ts[0], device, action, uid), rest, n);
      } else {
        OfThen(Plan([], true), rest, n);
      }
    }
  }

  /** The changes of a walk to one node are those of the node's own plan: a part of them from the front,
      and all of them if the walk succeeds. */
  predicate Follows(changes: seq<Change>, own: Plan<Change>, all: bool) {
    changes <= own.writes && (all ==> changes == own.writes && own.ok)
  }

  lemma {:induction false} WalkOf(s: Store, t: Tree, device: nat, action: Action, uid: u32, x: Tree)
    requires Simple(t) && x in Covered(t, device)
    ensures var p := WalkPlan(s, t, device, action, uid);
            Follows(Of(p.writes, x.id), NodePlan(x, At(s, x.id), action, uid), p.ok)
    decreases t, 1
  {
    hide NodePlan;
    var own := NodePlan(t, At(s, t.id), action, uid);
    OfWritesTo(t.id, own.writes, x.id);
    if t.kind.Directory? {
      OfThen(Lift(t.id, own), WalkChildren(s, t.children, device, action, uid), x.id);
      if x == t {
        forall y | y in CoveredAll(t.children, device) ensures y.id != t.id {
          CoveredAllInside(t.children, device, y);
        }
        WalkElsewhereAll(s, t.children, device, action, uid, t.id);
      } else {
        CoveredAllInside(t.children, device, x);
        WalkOfAll(s, t.children, device, action, uid, x);
      }
    } else {
      OfThen(Lift(t.id, own), Plan([], true), x.id);
    }
  }

  lemma {:induction false} WalkOfAll(s: Store, ts: seq<Tree>, device: nat, action: Action, uid: u32, x: Tree)
    requires SimpleAll(ts) && x in CoveredAll(ts, device)
    ensures var p := WalkChildren(s, ts, device, action, uid);
            Follows(Of(p.writes, x.id), NodePlan(x, At(s, x.id), action, uid), p.ok)
    decreases ts, 0
  {
    hide WalkPlan, NodePlan, Of, Then, Covered, At;
    var rest := WalkChildren(s, ts[1..], device, action, uid);
    var first := if Enters(ts[0], device) then WalkPlan(s, ts[0], device, action, uid) else Plan([], true);
    OfThen(first, rest, x.id);
    if Enters(ts[0], device) && x in Covered(ts[0], device) {
      NotAmongTheRest(ts, device, x);
      WalkElsewhereAll(s, ts[1..], device, action, uid, x.id);
      WalkOf(s, ts[0], device, action, uid, x);
      FirstFollows(first, rest, x.id, NodePlan(x, At(s, x.id), action, uid));
    } else {
      if Enters(ts[0], device) {
        NotInTheFirst(ts, device, x);
        WalkElsewhere(s, ts[0], device, action, uid, x.id);
      } else {
        OfNothing(x.id);
      }
      WalkOfAll(s, ts[1..], device, action, uid, x);
      RestFollows(first, rest, x.id, NodePlan(x, At(s, x.id), action, uid));
    }
  }

  lemma OfNothing(n: NodeId)
    ensures Of([], n) == []
  {
  }

  lemma NotAmongTheRest(ts: seq<Tree>, device: nat, x: Tree)
    requires ts != [] && SimpleAll(ts) && x in Covered(ts[0], device)
    ensures forall y | y in CoveredAll(ts[1..], device) :: y.id != x.id
  {
    CoveredIsInside(ts[0], device, x);
    forall y | y in CoveredAll(ts[1..], device) ensures y.id != x.id {
      CoveredAllInside(ts[1..], device, y);
    }
  }

  lemma NotInTheFirst(ts: seq<Tree>, device: nat, x: Tree)
    requires ts != [] && SimpleAll(ts) && x in CoveredAll(ts[1..], device)
    ensures !InBoundary(ts[0], device, x.id)
  {
    CoveredAllInside(ts[1..], device, x);
    forall y | y in Covered(ts[0], device) ensures y.id != x.id {
      CoveredIsInside(ts[0], device, y);
    }
  }

  lemma FirstFollows(first: Plan<Write>, rest: Plan<Write>, n: NodeId, own: Plan<Change>)
    requires Follows(Of(first.writes, n), own, first.ok) && Of(rest.writes, n) == []
    ensures Follows(Of(Then(first, rest).writes, n), own, Then(first, rest).ok)
  {
    hide Of;
    OfThen(first, rest, n);
  }

  lemma RestFollows(first: Plan<Write>, rest: Plan<Write>, n: NodeId, own: Plan<Change>)
    requires Of(first.writes, n) == [] && Follows(Of(rest.writes, n), own, rest.ok)
    ensures Follows(Of(Then(first, rest).writes, n), own, Then(first, rest).ok)
  {
    hide Of;
    OfThen(first, rest, n);
  }

  /** The walk succeeds exactly when every node of the boundary can be changed. */
  lemma {:induction false} WalkSucceeds(s: Store, t: Tree, device: nat, action: Action, uid: u32)
    ensures WalkPlan(s, t, device, action, uid).ok <==>
            forall x | x in Covered(t, device) :: NodePlan(x, At(s, x.id), action, uid).ok
    decreases t, 1
  {
    hide NodePlan;
    if t.kind.Directory? {
      WalkChildrenSucceed(s, t.children, device, action, uid);
    }
  }

  lemma {:induction false} WalkChildrenSucceed(s: Store, ts: seq<Tree>, device: nat, action: Action, uid: u32)
    ensures WalkChildren(s, ts, device, action, uid).ok <==>
            forall x | x in CoveredAll(ts, device) :: NodePlan(x, At(s, x.id), action, uid).ok
    decreases ts, 0
  {
    hide NodePlan, WalkPlan;
    if ts != [] {
      WalkChildrenSucceed(s, ts[1..], device, action, uid);
      if Enters(ts[0], device) {
        WalkSucceeds(s, ts[0], device, action, uid);
      }
    }
  }
}

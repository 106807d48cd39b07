/**
 Interrupted grants and revocations: whatever happened before, and wherever each attempt was cut off,
 a home whose status is "enabled" is granted on every file and directory of its boundary.
 */
module HomeCrash {
  import opened Wrappers
  import opened Acl
  import opened AclAccess
  import opened AclEdits
  import opened AclCodec
  import opened AclOrder
  import opened HomeTree
  import opened HomeWalk
  import opened HomeNode

  /** One call for one user, stopped after at most `cut` writes. */
  datatype Attempt = Attempt(action: Action, cut: nat, clears: bool)

  function Cut<T>(ws: seq<T>, cut: nat): seq<T> {
    if cut < |ws| then ws[..cut] else ws
  }

  function After(s: Store, home: Tree, uid: u32, a: Attempt): Store {
    PerformAll(s, uid, Cut(ManagePlan(s, home, a.action, uid, a.clears).writes, a.cut))
  }

  function AfterAll(s: Store, home: Tree, uid: u32, attempts: seq<Attempt>): Store
    decreases |attempts|
  {
    if attempts == [] then s else AfterAll(After(s, home, uid, attempts[0]), home, uid, attempts[1..])
  }

  /** The marker removal at the start of a grant took effect, or there was no marker to remove. */
  predicate Cleared(s: Store, home: Tree, uid: u32, a: Attempt) {
    a.action == Grant ==> a.clears || uid !in At(s, home.id).complete
  }

  /** The same apart from creation markers.  A write that fails while the program goes on differs from an
      interruption only there: the errors of removing a creation marker are ignored, and the marker is
      taken back when a new default list cannot be written. */
  ghost predicate UpToCreated(s: Store, v: Store) {
    forall id :: var (x, y) := (At(s, id), At(v, id)); x.access == y.access && x.default_ == y.default_ && x.complete == y.complete
  }

  /** A history of a home: one state before each attempt and one at the end. */
  ghost predicate History(states: seq<Store>, home: Tree, uid: u32, attempts: seq<Attempt>) {
    && |states| == |attempts| + 1
    && forall i | 0 <= i < |attempts| ::
         Cleared(states[i], home, uid, attempts[i]) && UpToCreated(After(states[i], home, uid, attempts[i]), states[i + 1])
  }

  ghost predicate SoundStore(s: Store) {
    forall id :: Sound(At(s, id))
  }

  predicate AllGranted(s: Store, home: Tree, uid: u32) {
    forall x | x in Covered(home, home.device) :: Granted(x, At(s, x.id), uid)
  }

  predicate Honest(s: Store, home: Tree, uid: u32) {
    StatusOf(At(s, home.id), uid) == Enabled ==> AllGranted(s, home, uid)
  }

  // What a cut plan does to a node.

  lemma AtCut(s: Store, uid: u32, ws: seq<Write>, cut: nat, n: NodeId)
    ensures At(PerformAll(s, uid, Cut(ws, cut)), n) == DoAll(At(s, n), uid, Of(Cut(ws, cut), n))
    ensures Of(Cut(ws, cut), n) <= Of(ws, n)
  {
    AtAfter(s, uid, Cut(ws, cut), n);
    if cut < |ws| {
      OfPrefix(ws, cut, n);
    }
  }

  lemma OfOne(w: Write, n: NodeId)
    ensures Of([w], n) == if w.node == n then [w.change] else []
    ensures Of([], n) == []
  {
  }

  /** What the marker steps add to the changes of the walk. */
  lemma ManageOf(s: Store, home: Tree, action: Action, uid: u32, clears: bool, n: NodeId)
    requires home.kind.Directory?
    ensures var p, walk := ManagePlan(s, home, action, uid, clears), WalkPlan(s, home, home.device, action, uid);
            && p.ok == walk.ok
            && Of(p.writes, n) ==
               (if n == home.id && action == Grant && clears then [DropComplete] else [])
               + Of(walk.writes, n)
               + (if n != home.id || !walk.ok then [] else if action == Grant then [MarkComplete] else [DropComplete])
  {
    var walk := WalkPlan(s, home, home.device, action, uid);
    hide WalkPlan, Of;
    var mark, drop := Write(home.id, MarkComplete), Write(home.id, DropComplete);
    OfOne(mark, n);
    OfOne(drop, n);
    if action == Grant {
      OfThen(walk, Plan([mark], true), n);
      OfThen(Plan(if clears then [drop] else [], true), Then(walk, Plan([mark], true)), n);
    } else {
      OfThen(walk, Plan([drop], true), n);
    }
  }

  /** Every change to a node is one of its own plan's, or a marker step. */
  lemma ManageChanges(s: Store, home: Tree, action: Action, uid: u32, clears: bool, n: NodeId, c: Change)
    requires Simple(home) && c in Of(ManagePlan(s, home, action, uid, clears).writes, n)
    ensures c == DropComplete || c == MarkComplete
         || exists x | x in Covered(home, home.device) :: x.id == n && c in NodePlan(x, At(s, n), action, uid).writes
  {
    hide NodePlan, Covered, WalkPlan, Simple;
    var walk := WalkPlan(s, home, home.device, action, uid).writes;
    assert home.kind.Directory?;
    ManageOf(s, home, action, uid, clears, n);
    if c != DropComplete && c != MarkComplete {
      assert c in Of(walk, n);
      if InBoundary(home, home.device, n) {
        var x :| x in Covered(home, home.device) && x.id == n;
        WalkOf(s, home, home.device, action, uid, x);
      } else {
        WalkElsewhere(s, home, home.device, action, uid, n);
      }
    }
  }

  /** No attempt, complete or not, stores a list that is not valid. */
  lemma StaysSound(s: Store, home: Tree, uid: u32, a: Attempt)
    requires Simple(home) && SoundStore(s)
    ensures SoundStore(After(s, home, uid, a))
  {
    var ws := ManagePlan(s, home, a.action, uid, a.clears).writes;
    hide ManagePlan, Sound, PerformAll, Simple, Covered, Of, DoAll, GrantNode, RevokeNode, Cut;
    forall id ensures Sound(At(After(s, home, uid, a), id)) {
      AtCut(s, uid, ws, a.cut, id);
      forall c | c in Of(Cut(ws, a.cut), id) ensures SoundChange(c) {
        ManageChanges(s, home, a.action, uid, a.clears, id, c);
        if c != DropComplete && c != MarkComplete {
          var x :| x in Covered(home, home.device) && x.id == id && c in NodePlan(x, At(s, id), a.action, uid).writes;
          if a.action == Grant {
            GrantChangesSound(x, At(s, id), uid, c);
          } else {
            RevokeChangesSound(x, At(s, id), uid, c);
          }
        }
      }
      DoAllSound(At(s, id), uid, Of(Cut(ws, a.cut), id));
    }
  }

  // Interrupting a revocation.

  /** A change after which the default list does not give the user everything. */
  predicate Takes(c: Change, uid: u32) {
    c.SetDefault? || c.CreateDefault? ==> !ListHas(Some(c.data), uid, 7)
  }

  lemma {:induction false} StaysTaken(x: Attrs, uid: u32, changes: seq<Change>)
    requires forall c | c in changes :: Takes(c, uid)
    requires !ListHas(x.default_, uid, 7)
    ensures !ListHas(DoAll(x, uid, changes).default_, uid, 7)
    decreases |changes|
  {
    assert !ListHas(None, uid, 7);
    hide ListHas;
    if changes != [] {
      assert changes[0] in changes;
      StaysTaken(Do(x, uid, changes[0]), uid, changes[1..]);
    }
  }

  lemma RevokedLacks(a: Entries, uid: u32)
    ensures !HasUser(RevokeUser(a, uid).0, uid)
  {
    var rest := WithoutUser(a, uid);
    hide Union;
    if HasUser(a, uid) && HasNamedEntries(rest) {
      forall e | e in RecalculateMask(rest) ensures !IsUser(e, uid) {
        assert e.tag == MASK || e in rest;
      }
    }
  }

  /** A list without an entry of the user, once written, gives the user nothing. */
  lemma WrittenWithout(a: Entries, uid: u32)
    requires !HasUser(a, uid)
    ensures forall wanted :: !ListHas(Some(Encode(a)), uid, wanted)
  {
    ParseEncode(a);
    SortedInOrder(a);
    hide Parse, Encode, Sorted, Within, Meet;
    FirstUser(Sorted(a), uid);
  }

  lemma RevokeTakes(t: Tree, x: Attrs, uid: u32, c: Change)
    requires c in RevokeNode(t, x, uid).writes
    ensures Takes(c, uid)
  {
    hide RevokeUser, Encode, Parse, HasNamedEntries, ListHas;
    if c.SetDefault? {
      assert x.default_.Some? && Parse(x.default_.value).Success?;
      var a := Parse(x.default_.value).value;
      RevokedLacks(a, uid);
      WrittenWithout(RevokeUser(a, uid).0, uid);
    }
  }

  /** The first thing a revocation takes from a directory is its default entry. */
  lemma RevokeStartsWithDefault(t: Tree, x: Attrs, uid: u32)
    requires t.kind.Directory? && ListHas(x.default_, uid, 7)
    ensures var ws := RevokeNode(t, x, uid).writes;
            ws != [] && !ListHas(Do(x, uid, ws[0]).default_, uid, 7)
  {
    var a := Parse(x.default_.value).value;
    FirstUser(a, uid);
    assert HasUser(a, uid);
    RemovedMeansHad(x, t, uid);
    RevokedLacks(a, uid);
    WrittenWithout(RevokeUser(a, uid).0, uid);
    assert !ListHas(None, uid, 7);
    hide RevokeUser, Encode, Parse, HasNamedEntries, ListHas, HasUser, RevokeAccess;
  }

  /** A revocation that wrote anything has left the home without its default entry. */
  lemma RevokeCutsDefault(s: Store, home: Tree, uid: u32, a: Attempt)
    requires Simple(home) && a.action == Revoke
    ensures After(s, home, uid, a) == s || StatusOf(At(After(s, home, uid, a), home.id), uid) != Enabled
  {
    var ws := ManagePlan(s, home, Revoke, uid, a.clears).writes;
    var x, changes := At(s, home.id), Of(Cut(ws, a.cut), home.id);
    if Cut(ws, a.cut) != [] {
      AtCut(s, uid, ws, a.cut, home.id);
      forall c | c in changes ensures Takes(c, uid) {
        RevokeManageTakes(s, home, uid, a.clears, c);
      }
      if ListHas(x.default_, uid, 7) {
        FirstRevokeWrite(s, home, uid, a.clears);
        assert ws[0] == Cut(ws, a.cut)[0];
        assert changes[0] == ws[0].change;
        assert changes == [changes[0]] + changes[1..];
        hide ManagePlan, PerformAll, ListHas, RevokeNode, Do, Of, Takes;
        StaysTaken(Do(x, uid, changes[0]), uid, changes[1..]);
        DoFirst(x, uid, changes[0], changes[1..]);
      } else {
        StaysTaken(x, uid, changes);
      }
    }
  }

  lemma RevokeManageTakes(s: Store, home: Tree, uid: u32, clears: bool, c: Change)
    requires Simple(home) && c in Of(ManagePlan(s, home, Revoke, uid, clears).writes, home.id)
    ensures Takes(c, uid)
  {
    hide RevokeNode, ManagePlan, Covered, Takes;
    ManageChanges(s, home, Revoke, uid, clears, home.id, c);
    if c == DropComplete || c == MarkComplete {
      MarkersTake(c, uid);
    } else {
      var x :| x in Covered(home, home.device) && x.id == home.id && c in NodePlan(x, At(s, home.id), Revoke, uid).writes;
      RevokeTakes(x, At(s, home.id), uid, c);
    }
  }

  lemma MarkersTake(c: Change, uid: u32)
    requires c == DropComplete || c == MarkComplete
    ensures Takes(c, uid)
  {
  }

  lemma FirstRevokeWrite(s: Store, home: Tree, uid: u32, clears: bool)
    requires home.kind.Directory? && ListHas(At(s, home.id).default_, uid, 7)
    ensures var ws := ManagePlan(s, home, Revoke, uid, clears).writes;
            ws != [] && ws[0].node == home.id && !ListHas(Do(At(s, home.id), uid, ws[0].change).default_, uid, 7)
  {
    RevokeStartsWithDefault(home, At(s, home.id), uid);
    hide RevokeNode, ListHas, Do, WalkChildren;
  }

  // Interrupting a grant.

  lemma {:induction false} StaysUnmarked(x: Attrs, uid: u32, changes: seq<Change>)
    requires MarkComplete !in changes && uid !in x.complete
    ensures uid !in DoAll(x, uid, changes).complete
    decreases |changes|
  {
    if changes != [] {
      StaysUnmarked(Do(x, uid, changes[0]), uid, changes[1..]);
    }
  }

  lemma NodeNeverMarks(t: Tree, x: Attrs, action: Action, uid: u32)
    ensures MarkComplete !in NodePlan(t, x, action, uid).writes && DropComplete !in NodePlan(t, x, action, uid).writes
  {
    hide RevokeUser, GrantUser, Encode, Parse, Read, HasNamedEntries, Base, BaseACL, Required;
  }

  /** The changes of a grant to the home itself, without the last one. */
  function GrantHead(s: Store, home: Tree, uid: u32, clears: bool): seq<Change> {
    (if clears then [DropComplete] else []) + Of(WalkPlan(s, home, home.device, Grant, uid).writes, home.id)
  }

  lemma HeadNeverMarks(s: Store, home: Tree, uid: u32, clears: bool)
    requires Simple(home)
    ensures MarkComplete !in GrantHead(s, home, uid, clears)
    ensures clears ==> GrantHead(s, home, uid, clears) != [] && GrantHead(s, home, uid, clears)[0] == DropComplete
  {
    assert home in Covered(home, home.device);
    WalkOf(s, home, home.device, Grant, uid, home);
    NodeNeverMarks(home, At(s, home.id), Grant, uid);
    hide NodePlan, WalkPlan, Of;
  }

  /** Until its last write a grant leaves the home unmarked. */
  lemma HeadUnmarks(s: Store, home: Tree, uid: u32, clears: bool, changes: seq<Change>)
    requires Simple(home) && changes <= GrantHead(s, home, uid, clears) && (clears || uid !in At(s, home.id).complete)
    requires changes != [] || uid !in At(s, home.id).complete
    ensures uid !in DoAll(At(s, home.id), uid, changes).complete
  {
    HeadNeverMarks(s, home, uid, clears);
    hide GrantHead, Simple, Do, At, DoAll;
    var x := At(s, home.id);
    assert MarkComplete !in changes;
    if uid in x.complete {
      assert changes == [DropComplete] + changes[1..];
      DoFirst(x, uid, DropComplete, changes[1..]);
      Drops(x, uid);
      StaysUnmarked(Do(x, uid, DropComplete), uid, changes[1..]);
    } else {
      StaysUnmarked(x, uid, changes);
    }
  }

  lemma Drops(x: Attrs, uid: u32)
    ensures uid !in Do(x, uid, DropComplete).complete
  {
  }

  /** Shape of a grant's writes: everything before the last write is the head. */
  lemma GrantShape(s: Store, home: Tree, uid: u32, clears: bool) returns (head: seq<Write>)
    requires home.kind.Directory?
    ensures var p := ManagePlan(s, home, Grant, uid, clears);
            && p.writes == head + (if p.ok then [Write(home.id, MarkComplete)] else [])
            && Of(head, home.id) == GrantHead(s, home, uid, clears)
            && (clears ==> head != [] && head[0] == Write(home.id, DropComplete))
  {
    hide WalkPlan, Of;
    var walk := WalkPlan(s, home, home.device, Grant, uid);
    var first := Plan(if clears then [Write(home.id, DropComplete)] else [], true);
    OfOne(Write(home.id, DropComplete), home.id);
    OfThen(first, walk, home.id);
    head := first.writes + walk.writes;
  }

  /** A grant cut off before its last write leaves everything as it was, or the home unmarked. */
  lemma GrantCutUnmarks(s: Store, home: Tree, uid: u32, a: Attempt)
    requires Simple(home) && home.kind.Directory? && a.action == Grant && Cleared(s, home, uid, a)
    requires var p := ManagePlan(s, home, Grant, uid, a.clears); !p.ok || a.cut < |p.writes|
    ensures After(s, home, uid, a) == s || uid !in At(After(s, home, uid, a), home.id).complete
  {
    var p := ManagePlan(s, home, Grant, uid, a.clears);
    var done := Cut(p.writes, a.cut);
    var head := GrantShape(s, home, uid, a.clears);
    hide ManagePlan, GrantHead;
    if done != [] {
      AtAfter(s, uid, done, home.id);
      if a.cut < |p.writes| {
        assert done == head[..a.cut];
        OfPrefix(head, a.cut, home.id);
      } else {
        assert done == head;
      }
      if a.clears {
        assert done[0] == Write(home.id, DropComplete);
        assert Of(done, home.id) != [];
      }
      HeadUnmarks(s, home, uid, a.clears, Of(done, home.id));
    }
  }

  lemma {:induction false} DoAppend(x: Attrs, uid: u32, changes: seq<Change>, c: Change)
    ensures DoAll(x, uid, changes + [c]) == Do(DoAll(x, uid, changes), uid, c)
    decreases |changes|
  {
    hide Do;
    if changes == [] {
      assert [] + [c] == [c];
      assert [c][1..] == [];
    } else {
      assert (changes + [c])[1..] == changes[1..] + [c];
      DoAppend(Do(x, uid, changes[0]), uid, changes[1..], c);
    }
  }

  /** Apart from the completion marker. */
  predicate SameLists(x: Attrs, y: Attrs) {
    x.access == y.access && x.default_ == y.default_ && x.created == y.created
  }

  lemma {:induction false} DoLists(x: Attrs, y: Attrs, uid: u32, changes: seq<Change>)
    requires SameLists(x, y)
    ensures SameLists(DoAll(x, uid, changes), DoAll(y, uid, changes))
    decreases |changes|
  {
    if changes != [] {
      DoLists(Do(x, uid, changes[0]), Do(y, uid, changes[0]), uid, changes[1..]);
    }
  }

  /** After a completed call every node of the boundary has the lists its own plan asks for. */
  lemma CompletedLists(s: Store, home: Tree, action: Action, uid: u32, clears: bool, x: Tree)
    requires Simple(home) && x in Covered(home, home.device) && ManagePlan(s, home, action, uid, clears).ok
    ensures var p, own := ManagePlan(s, home, action, uid, clears), NodePlan(x, At(s, x.id), action, uid);
            own.ok && SameLists(At(PerformAll(s, uid, p.writes), x.id), DoAll(At(s, x.id), uid, own.writes))
  {
    var y, own := At(s, x.id), NodePlan(x, At(s, x.id), action, uid);
    ManageOf(s, home, action, uid, clears, x.id);
    WalkOf(s, home, home.device, action, uid, x);
    var p := ManagePlan(s, home, action, uid, clears);
    AtAfter(s, uid, p.writes, x.id);
    hide ManagePlan, NodePlan, WalkPlan, Of, Covered, Simple, Do;
    AroundTheWalk(y, uid, own.writes,
      if x.id == home.id && action == Grant && clears then [DropComplete] else [],
      if x.id != home.id then [] else if action == Grant then [MarkComplete] else [DropComplete]);
  }

  /** Marker steps before and after a list of changes. */
  lemma AroundTheWalk(x: Attrs, uid: u32, changes: seq<Change>, before: seq<Change>, after: seq<Change>)
    requires before == [] || before == [DropComplete]
    requires after == [] || after == [DropComplete] || after == [MarkComplete]
    ensures SameLists(DoAll(x, uid, before + changes + after), DoAll(x, uid, changes))
  {
    var y := if before == [] then x else Do(x, uid, DropComplete);
    assert DoAll(x, uid, before + (changes + after)) == DoAll(y, uid, changes + after) by {
      if before == [] {
        assert [] + (changes + after) == changes + after;
      } else {
        DoFirst(x, uid, DropComplete, changes + after);
      }
    }
    assert before + changes + after == before + (changes + after);
    DoLists(x, y, uid, changes);
    if after == [] {
      assert changes + after == changes;
    } else {
      DoAppend(y, uid, changes, after[0]);
    }
  }

  /** Cutting off the changes of a call to a node cuts off the node's own changes, apart from markers. */
  lemma StripMarkers(x: Attrs, uid: u32, changes: seq<Change>, before: seq<Change>, own: seq<Change>, after: seq<Change>) returns (part: seq<Change>)
    requires before == [] || before == [DropComplete]
    requires after == [] || after == [DropComplete] || after == [MarkComplete]
    requires changes <= before + own + after
    ensures part <= own && SameLists(DoAll(x, uid, changes), DoAll(x, uid, part))
  {
    hide DoAll, SameLists;
    if |changes| <= |before| {
      part := [];
      assert changes == before[..|changes|];
      assert changes == changes + [] + [];
      AroundTheWalk(x, uid, [], changes, []);
    } else if |changes| <= |before| + |own| {
      part := own[..|changes| - |before|];
      assert changes == before + part + [];
      AroundTheWalk(x, uid, part, before, []);
    } else {
      part := own;
      assert changes == before + own + after;
      AroundTheWalk(x, uid, own, before, after);
    }
  }

  /** What any call, cut off anywhere, has done to a node of the boundary. */
  lemma PartOfOwn(s: Store, home: Tree, uid: u32, a: Attempt, x: Tree) returns (part: seq<Change>)
    requires Simple(home) && home.kind.Directory? && x in Covered(home, home.device)
    ensures part <= NodePlan(x, At(s, x.id), a.action, uid).writes
    ensures SameLists(At(After(s, home, uid, a), x.id), DoAll(At(s, x.id), uid, part))
  {
    var ws := ManagePlan(s, home, a.action, uid, a.clears).writes;
    var walk := WalkPlan(s, home, home.device, a.action, uid);
    ManageOf(s, home, a.action, uid, a.clears, x.id);
    WalkOf(s, home, home.device, a.action, uid, x);
    AtCut(s, uid, ws, a.cut, x.id);
    hide ManagePlan, WalkPlan, Of, Cut, Covered, NodePlan, Simple, DoAll, SameLists;
    part := StripMarkers(At(s, x.id), uid, Of(Cut(ws, a.cut), x.id),
      if x.id == home.id && a.action == Grant && a.clears then [DropComplete] else [],
      Of(walk.writes, x.id),
      if x.id != home.id || !walk.ok then [] else if a.action == Grant then [MarkComplete] else [DropComplete]);
  }

  /** A completed grant gives the user access to the whole boundary. */
  lemma CompletedGrant(s: Store, home: Tree, uid: u32, clears: bool)
    requires Simple(home) && SoundStore(s) && ManagePlan(s, home, Grant, uid, clears).ok
    ensures AllGranted(PerformAll(s, uid, ManagePlan(s, home, Grant, uid, clears).writes), home, uid)
  {
    var p := ManagePlan(s, home, Grant, uid, clears);
    var r := PerformAll(s, uid, p.writes);
    hide ManagePlan, PerformAll, Granted, GrantNode, Sound, Covered, Simple, DoAll;
    forall x | x in Covered(home, home.device) ensures Granted(x, At(r, x.id), uid) {
      CompletedLists(s, home, Grant, uid, clears, x);
      assert Sound(At(s, x.id));
      GrantGives(x, At(s, x.id), uid);
      SameListsSameGrant(x, At(r, x.id), DoAll(At(s, x.id), uid, GrantNode(x, At(s, x.id), uid).writes), uid);
    }
  }

  lemma SameListsSameGrant(t: Tree, x: Attrs, y: Attrs, uid: u32)
    requires SameLists(x, y)
    ensures Granted(t, x, uid) <==> Granted(t, y, uid)
  {
    hide ListHas;
  }

  // Any number of attempts.

  lemma StaysHonest(s: Store, home: Tree, uid: u32, a: Attempt)
    requires Simple(home) && SoundStore(s) && Honest(s, home, uid) && Cleared(s, home, uid, a)
    ensures Honest(After(s, home, uid, a), home, uid)
  {
    var p := ManagePlan(s, home, a.action, uid, a.clears);
    hide Simple, AllGranted, Sound;
    if !home.kind.Directory? {
      assert p.writes == [];
    } else if a.action == Revoke {
      hide After, StatusOf;
      RevokeCutsDefault(s, home, uid, a);
    } else if p.ok && a.cut >= |p.writes| {
      CompletedGrant(s, home, uid, a.clears);
    } else {
      GrantCutUnmarks(s, home, uid, a);
      hide After, ListHas;
    }
  }

  lemma CreatedDoesNotMatter(s: Store, v: Store, home: Tree, uid: u32)
    requires UpToCreated(s, v)
    ensures Honest(s, home, uid) ==> Honest(v, home, uid)
    ensures SoundStore(s) ==> SoundStore(v)
  {
    hide ListHas, SoundList, Covered, Malformed, Required;
    if SoundStore(s) {
      forall id ensures Sound(At(v, id)) {
        assert Sound(At(s, id));
      }
    }
    if Honest(s, home, uid) && StatusOf(At(v, home.id), uid) == Enabled {
      assert StatusOf(At(s, home.id), uid) == Enabled;
      forall x | x in Covered(home, home.device) ensures Granted(x, At(v, x.id), uid) {
        assert Granted(x, At(s, x.id), uid);
      }
    }
  }

  lemma {:induction false} AttemptsStayHonest(states: seq<Store>, home: Tree, uid: u32, attempts: seq<Attempt>, n: nat)
    requires Simple(home) && History(states, home, uid, attempts) && n <= |attempts|
    requires SoundStore(states[0]) && Honest(states[0], home, uid)
    ensures Honest(states[n], home, uid) && SoundStore(states[n])
  {
    hide Honest, After, Cleared, SoundStore, Simple, UpToCreated;
    if n > 0 {
      var s, a := states[n - 1], attempts[n - 1];
      AttemptsStayHonest(states, home, uid, attempts, n - 1);
      StaysSound(s, home, uid, a);
      StaysHonest(s, home, uid, a);
      CreatedDoesNotMatter(After(s, home, uid, a), states[n], home, uid);
    }
  }

  /** Crash consistency: start from a home without the user's marker, and interrupt any number of grants
      and revocations after any write, with writes of creation markers failing at will.  If the status is
      "enabled" in the end, then the user may do at every file and directory of the boundary what a grant
      is meant to allow (unless the user owns it), and every directory hands the access on to what is
      created in it. */
  lemma EnabledMeansGranted(states: seq<Store>, home: Tree, uid: u32, attempts: seq<Attempt>, x: Tree, f: File, c: Credential)
    requires Simple(home) && History(states, home, uid, attempts)
    requires SoundStore(states[0]) && uid !in At(states[0], home.id).complete
    requires StatusOf(At(states[|attempts|], home.id), uid) == Enabled
    requires x in Covered(home, home.device)
    ensures var y := At(states[|attempts|], x.id);
            && ListHas(y.access, uid, Required(x))
            && (x.kind.Directory? ==> ListHas(y.default_, uid, 7))
            && (c.uid == uid && uid != f.owner ==> Allows(Parse(y.access.value).value, f, c, Required(x)))
  {
    assert Honest(states[0], home, uid) by { hide ListHas, AllGranted; }
    AttemptsStayHonest(states, home, uid, attempts, |attempts|);
    var y := At(states[|attempts|], x.id);
    hide Simple, History, Covered, ListHas, Allows, StatusOf, Required, Sound;
    assert Granted(x, y, uid);
    assert Sound(y);
    if c.uid == uid && uid != f.owner {
      GrantedIsAllowed(x, y, uid, f, c);
    }
  }
}

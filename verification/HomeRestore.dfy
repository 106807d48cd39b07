/**
 A completed grant followed by a completed revocation, and a completed grant repeated.
 */
module HomeRestore {
  import opened Wrappers
  import opened Acl
  import opened AclAccess
  import opened AclEdits
  import opened AclCodec
  import opened AclOrder
  import opened HomeTree
  import opened HomeWalk
  import opened HomeNode
  import opened HomeCrash

  // One node.

  /** The user is named in neither list, and has no creation marker. */
  predicate Untouched(t: Tree, x: Attrs, uid: u32) {
    && (Start(t, x).Success? ==> !HasUser(Start(t, x).value, uid))
    && (x.default_.Some? && Parse(x.default_.value).Success? ==> !HasUser(Parse(x.default_.value).value, uid))
    && uid !in x.created
  }

  /** Two lists under which every principal has the same rights. */
  ghost predicate SameRights(a: Entries, b: Entries) {
    Valid(a) && Valid(b) && Rights(a) == Rights(b)
  }

  /** A present, readable list with the rights of `a`. */
  ghost predicate Stores(data: Option<Bytes>, a: Entries) {
    data.Some? && Parse(data.value).Success? && SameRights(Parse(data.value).value, a)
  }

  /** What a grant-then-revoke leaves: equivalent lists, a default list only where there was one, and the
      same creation markers. */
  ghost predicate Restored(t: Tree, before: Attrs, after: Attrs) {
    && Start(t, before).Success? && Start(t, after).Success? && SameRights(Start(t, after).value, Start(t, before).value)
    && (before.default_.None? ==> after.default_.None?)
    && (t.kind.Directory? && before.default_.Some? ==>
          Parse(before.default_.value).Success? && Stores(after.default_, Parse(before.default_.value).value))
    && after.created == before.created
  }

  /** A list as a grant wrote it, for a user that had no entry. */
  lemma RevokeGranted(a: Entries, uid: u32, perm: u16)
    requires Valid(a) && Within(perm, 7) && !HasUser(a, uid)
    ensures var g := Sorted(GrantUser(a, uid, perm));
            var (rest, removed) := RevokeUser(g, uid);
            && removed && Parse(Encode(GrantUser(a, uid, perm))) == Success(g)
            && Stores(Some(Encode(rest)), a)
  {
    hide *;
    var g := Sorted(GrantUser(a, uid, perm));
    ReadGranted(a, uid, perm);
    RevokeRights(g, uid);
    var rest := RevokeUser(g, uid).0;
    ValidIsDistinct(a);
    ValidIsDistinct(g);
    TightRights(g);
    ValidIsDistinct(rest);
    NoUserRight(a, uid);
    PutThenRemove(Rights(a), (USER, uid), perm);
    ReadBack(rest);
    StoresEncoded(rest, a);
  }

  lemma StoresEncoded(rest: Entries, a: Entries)
    requires Valid(rest) && Valid(a) && Rights(rest) == Rights(a)
    requires Parse(Encode(rest)) == Success(Sorted(rest)) && Valid(Sorted(rest)) && Rights(Sorted(rest)) == Rights(rest)
    ensures Stores(Some(Encode(rest)), a)
  {
    hide Valid, Rights, Parse, Encode, Sorted;
  }

  /** The new default list of a directory has one named entry, so removing it leaves none. */
  lemma OnlyNamed(a: Entries, uid: u32, perm: u16)
    requires Valid(a) && Within(perm, 7) && !HasNamedEntries(a)
    ensures var g := Sorted(GrantUser(a, uid, perm)); !HasNamedEntries(RevokeUser(g, uid).0)
  {
    var r := GrantUser(a, uid, perm);
    GrantMembers(a, uid, perm);
    SortedInOrder(r);
    ReadGranted(a, uid, perm);
    hide GrantUser, Union, Meet, Within, Sorted, Valid, SetUser, Collapse, EffectiveMask, Parse, Encode, Tight, Rights, RecalculateMask;
    var g := Sorted(r);
    forall e | e in WithoutUser(g, uid) ensures !Named(e.tag) {
      OneNamed(a, uid, perm, e);
    }
    hide HasUser, Distinct;
  }

  /** The access list goes back to what it permitted. */
  lemma AccessRestored(t: Tree, x: Attrs, y: Attrs, uid: u32)
    requires Sound(x) && Untouched(t, x, uid) && GrantNode(t, x, uid).ok && SameLists(y, GrantResult(t, x, uid))
    ensures exists b: Bytes :: RevokeAccess(t, y, uid) == Plan([SetAccess(b)], true) && Stores(Some(b), Start(t, x).value)
  {
    StartIsValid(t, x);
    RequiredIsWithin(t);
    var a := Start(t, x).value;
    RevokeGranted(a, uid, Required(t));
    hide RevokeUser, GrantUser, Encode, Parse, Base, BaseACL, Valid, Within, Required, HasUser, Stores;
    assert y.access == Some(Encode(GrantUser(a, uid, Required(t))));
    var b := Encode(RevokeUser(Sorted(GrantUser(a, uid, Required(t))), uid).0);
    assert RevokeAccess(t, y, uid) == Plan([SetAccess(b)], true);
  }

  /** The default list goes back to what it permitted, or goes away if the grant had made it. */
  lemma DefaultRestored(t: Tree, x: Attrs, y: Attrs, uid: u32)
    requires t.kind.Directory? && Sound(x) && Untouched(t, x, uid) && GrantNode(t, x, uid).ok && SameLists(y, GrantResult(t, x, uid))
    ensures x.default_.None? ==> RevokeDefault(y, uid) == Plan([DropDefault, DropCreated], true)
    ensures x.default_.Some? ==> exists b: Bytes ::
              RevokeDefault(y, uid) == Plan([SetDefault(b)], true)
              && Parse(x.default_.value).Success? && Stores(Some(b), Parse(x.default_.value).value)
  {
    DefaultStart(t, x, uid);
    RequiredIsWithin(t);
    SmallIsWithinSeven(7);
    hide RevokeUser, GrantUser, Encode, Parse, Base, BaseACL, Valid, Within, Required, HasUser, Stores, HasNamedEntries;
    var g := GrantUser(Start(t, x).value, uid, Required(t));
    var d := Read(x.default_, Base(g)).value;
    assert y.default_ == Some(Encode(GrantUser(d, uid, 7)));
    if x.default_.None? {
      GrantIsValid(Start(t, x).value, uid, Required(t));
      BaseHasNoUser(g, uid);
      BaseIsValid(g);
      RevokeGranted(d, uid, 7);
      OnlyNamed(d, uid, 7);
    } else {
      RevokeGranted(d, uid, 7);
      var b := Encode(RevokeUser(Sorted(GrantUser(d, uid, 7)), uid).0);
      assert RevokeDefault(y, uid) == Plan([SetDefault(b)], true);
    }
  }

  lemma BaseHasNoUser(a: Entries, uid: u32)
    ensures !HasUser(Base(a), uid)
  {
  }

  /** A node that was granted and revoked. */
  lemma NodeRestored(t: Tree, x: Attrs, y: Attrs, uid: u32)
    requires Sound(x) && Untouched(t, x, uid) && GrantNode(t, x, uid).ok && SameLists(y, GrantResult(t, x, uid))
    ensures RevokeNode(t, y, uid).ok && Restored(t, x, DoAll(y, uid, RevokeNode(t, y, uid).writes))
  {
    AccessRestored(t, x, y, uid);
    CreatedBy(t, x, y, uid);
    if t.kind.Directory? {
      DefaultRestored(t, x, y, uid);
    }
    hide *;
    var b: Bytes :| RevokeAccess(t, y, uid) == Plan([SetAccess(b)], true) && Stores(Some(b), Start(t, x).value);
    if !t.kind.Directory? {
      FileRestored(t, x, y, uid, b);
    } else if x.default_.None? {
      NewDefaultRestored(t, x, y, uid, b);
    } else {
      var d: Bytes :| RevokeDefault(y, uid) == Plan([SetDefault(d)], true)
        && Parse(x.default_.value).Success? && Stores(Some(d), Parse(x.default_.value).value);
      OldDefaultRestored(t, x, y, uid, d, b);
    }
  }

  lemma StartOfStored(t: Tree, z: Attrs, a: Entries)
    requires Stores(z.access, a)
    ensures Start(t, z).Success? && SameRights(Start(t, z).value, a)
  {
    hide Parse, SameRights;
  }

  lemma FileRestored(t: Tree, x: Attrs, y: Attrs, uid: u32, b: Bytes)
    requires !t.kind.Directory? && Start(t, x).Success? && y.created == x.created && y.default_ == x.default_
    requires RevokeAccess(t, y, uid) == Plan([SetAccess(b)], true) && Stores(Some(b), Start(t, x).value)
    ensures RevokeNode(t, y, uid).ok && Restored(t, x, DoAll(y, uid, RevokeNode(t, y, uid).writes))
  {
    hide RevokeAccess, RevokeDefault, Stores, Start, Parse, DoAll, SameRights, Restored;
    var z := y.(access := Some(b));
    DoOne(y, uid, SetAccess(b));
    assert [] + [SetAccess(b)] == [SetAccess(b)];
    StartOfStored(t, z, Start(t, x).value);
    FileIsRestored(t, x, z);
  }

  lemma FileIsRestored(t: Tree, x: Attrs, z: Attrs)
    requires !t.kind.Directory? && z.created == x.created && z.default_ == x.default_
    requires Start(t, x).Success? && Start(t, z).Success? && SameRights(Start(t, z).value, Start(t, x).value)
    ensures Restored(t, x, z)
  {
    hide Start, SameRights;
  }

  lemma NewDefaultRestored(t: Tree, x: Attrs, y: Attrs, uid: u32, b: Bytes)
    requires t.kind.Directory? && Start(t, x).Success? && y.created - {uid} == x.created && x.default_.None?
    requires RevokeAccess(t, y, uid) == Plan([SetAccess(b)], true) && Stores(Some(b), Start(t, x).value)
    requires RevokeDefault(y, uid) == Plan([DropDefault, DropCreated], true)
    ensures RevokeNode(t, y, uid).ok && Restored(t, x, DoAll(y, uid, RevokeNode(t, y, uid).writes))
  {
    TakeDefault(y, uid, b);
    StartOfStored(t, y.(default_ := None, created := y.created - {uid}, access := Some(b)), Start(t, x).value);
    hide RevokeAccess, RevokeDefault, Stores, Start, Parse, DoAll, SameRights;
  }

  lemma OldDefaultRestored(t: Tree, x: Attrs, y: Attrs, uid: u32, d: Bytes, b: Bytes)
    requires t.kind.Directory? && Start(t, x).Success? && y.created == x.created && x.default_.Some?
    requires RevokeAccess(t, y, uid) == Plan([SetAccess(b)], true) && Stores(Some(b), Start(t, x).value)
    requires RevokeDefault(y, uid) == Plan([SetDefault(d)], true)
    requires Parse(x.default_.value).Success? && Stores(Some(d), Parse(x.default_.value).value)
    ensures RevokeNode(t, y, uid).ok && Restored(t, x, DoAll(y, uid, RevokeNode(t, y, uid).writes))
  {
    PutDefault(y, uid, d, b);
    StartOfStored(t, y.(default_ := Some(d), access := Some(b)), Start(t, x).value);
    hide RevokeAccess, RevokeDefault, Stores, Start, Parse, DoAll, SameRights;
  }

  lemma CreatedBy(t: Tree, x: Attrs, y: Attrs, uid: u32)
    requires Untouched(t, x, uid) && GrantNode(t, x, uid).ok && SameLists(y, GrantResult(t, x, uid))
    ensures Start(t, x).Success?
    ensures t.kind.Directory? && x.default_.None? ==> y.created - {uid} == x.created
    ensures !(t.kind.Directory? && x.default_.None?) ==> y.created == x.created
    ensures !t.kind.Directory? ==> y.default_ == x.default_
  {
    hide GrantUser, Encode, Parse, Base, BaseACL, HasUser, Required;
  }

  lemma TakeDefault(y: Attrs, uid: u32, b: Bytes)
    ensures DoAll(y, uid, [DropDefault, DropCreated] + [SetAccess(b)]) ==
            y.(default_ := None, created := y.created - {uid}, access := Some(b))
  {
    var last := [SetAccess(b)];
    assert [DropDefault, DropCreated] + last == [DropDefault] + ([DropCreated] + last);
    DoFirst(y, uid, DropDefault, [DropCreated] + last);
    DoFirst(y.(default_ := None), uid, DropCreated, last);
  }

  lemma PutDefault(y: Attrs, uid: u32, d: Bytes, b: Bytes)
    ensures DoAll(y, uid, [SetDefault(d)] + [SetAccess(b)]) == y.(default_ := Some(d), access := Some(b))
  {
    DoFirst(y, uid, SetDefault(d), [SetAccess(b)]);
  }

  /** Granting again writes the same bytes again. */
  lemma RegrantBytes(a: Entries, uid: u32, perm: u16)
    requires Valid(a) && Within(perm, 7)
    ensures var g := GrantUser(a, uid, perm); Encode(GrantUser(Sorted(g), uid, perm)) == Encode(g)
  {
    hide *;
    var g := GrantUser(a, uid, perm);
    var h := GrantUser(Sorted(g), uid, perm);
    GrantRights(a, uid, perm);
    ReadGranted(a, uid, perm);
    GrantRights(Sorted(g), uid, perm);
    ValidIsDistinct(a);
    ValidIsDistinct(g);
    ValidIsDistinct(Sorted(g));
    ValidIsDistinct(h);
    TightRights(g);
    TightRights(h);
    PutTwice(Rights(a), (USER, uid), perm);
    GrantedMask(a, uid, perm);
    GrantedMask(Sorted(g), uid, perm);
    SameRightsSameEntries(h, g);
    SameBytes(h, g);
  }

  lemma PutTwice(m: map<Key, u16>, k: Key, v: u16)
    ensures m[k := v][k := v] == m[k := v]
  {
  }

  /** Granting a node again changes nothing. */
  lemma RegrantNode(t: Tree, x: Attrs, y: Attrs, uid: u32)
    requires Sound(x) && GrantNode(t, x, uid).ok && SameLists(y, GrantResult(t, x, uid))
    ensures GrantNode(t, y, uid).ok && DoAll(y, uid, GrantNode(t, y, uid).writes) == y
  {
    DefaultStart(t, x, uid);
    RequiredIsWithin(t);
    SmallIsWithinSeven(7);
    var a := Start(t, x).value;
    ReadGranted(a, uid, Required(t));
    RegrantBytes(a, uid, Required(t));
    var g := GrantUser(a, uid, Required(t));
    if t.kind.Directory? {
      var d := Read(x.default_, Base(g)).value;
      ReadGranted(d, uid, 7);
      RegrantBytes(d, uid, 7);
    }
    hide GrantUser, Encode, Parse, Base, BaseACL, Valid, Within, Required, HasUser, Sorted, Tight, Rights;
    GrantDoes(t, y, uid);
    hide DoAll, GrantNode;
  }

  // The whole home.

  /** What a completed call leaves at the home itself beside the walk's own changes. */
  function Marked(isHome: bool, action: Action, uid: u32, y: Attrs): Attrs {
    if !isHome then y else y.(complete := if action == Grant then y.complete + {uid} else y.complete - {uid})
  }

  lemma {:induction false} KeepsComplete(x: Attrs, uid: u32, changes: seq<Change>)
    requires MarkComplete !in changes && DropComplete !in changes
    ensures DoAll(x, uid, changes).complete == x.complete
    decreases |changes|
  {
    if changes != [] {
      assert changes[0] in changes;
      KeepsComplete(Do(x, uid, changes[0]), uid, changes[1..]);
    }
  }

  lemma MarkersAround(x: Attrs, uid: u32, changes: seq<Change>, before: seq<Change>, action: Action)
    requires MarkComplete !in changes && DropComplete !in changes
    requires before == [] || (before == [DropComplete] && action == Grant)
    ensures DoAll(x, uid, before + changes + [if action == Grant then MarkComplete else DropComplete])
         == Marked(true, action, uid, DoAll(x, uid, changes))
  {
    var last := if action == Grant then MarkComplete else DropComplete;
    var y := if before == [] then x else Do(x, uid, DropComplete);
    KeepsComplete(x, uid, changes);
    KeepsComplete(y, uid, changes);
    DoLists(x, y, uid, changes);
    DoAppend(y, uid, changes, last);
    assert before + changes + [last] == before + (changes + [last]);
    if before == [] {
      assert [] + (changes + [last]) == changes + [last];
    } else {
      DoFirst(x, uid, DropComplete, changes + [last]);
    }
    hide DoAll;
  }

  /** Exact coverage: a completed grant or revocation applies to every node of the boundary the changes
      that its own attributes call for, marks or unmarks the home, and does nothing else anywhere. */
  lemma CompletedIsExact(s: Store, home: Tree, action: Action, uid: u32, clears: bool, n: NodeId)
    requires Simple(home) && ManagePlan(s, home, action, uid, clears).ok
    ensures var r := PerformAll(s, uid, ManagePlan(s, home, action, uid, clears).writes);
            && (forall x | x in Covered(home, home.device) && x.id == n ::
                 At(r, n) == Marked(n == home.id, action, uid, DoAll(At(s, n), uid, NodePlan(x, At(s, n), action, uid).writes)))
            && (!InBoundary(home, home.device, n) ==> At(r, n) == At(s, n))
  {
    var p := ManagePlan(s, home, action, uid, clears);
    AtAfter(s, uid, p.writes, n);
    ManageOf(s, home, action, uid, clears, n);
    hide ManagePlan, WalkPlan, NodePlan, PerformAll, Of, Do, Simple, Marked;
    forall x | x in Covered(home, home.device) && x.id == n
      ensures At(PerformAll(s, uid, p.writes), n)
           == Marked(n == home.id, action, uid, DoAll(At(s, n), uid, NodePlan(x, At(s, n), action, uid).writes))
    {
      WalkOf(s, home, home.device, action, uid, x);
      NodeNeverMarks(x, At(s, n), action, uid);
      CoveredExact(At(s, n), uid, NodePlan(x, At(s, n), action, uid).writes, n == home.id, action, clears);
    }
    if !InBoundary(home, home.device, n) {
      assert home in Covered(home, home.device);
      WalkElsewhere(s, home, home.device, action, uid, n);
    }
  }

  lemma CoveredExact(x: Attrs, uid: u32, changes: seq<Change>, isHome: bool, action: Action, clears: bool)
    requires MarkComplete !in changes && DropComplete !in changes
    ensures DoAll(x, uid, (if isHome && action == Grant && clears then [DropComplete] else []) + changes
                          + (if !isHome then [] else if action == Grant then [MarkComplete] else [DropComplete]))
         == Marked(isHome, action, uid, DoAll(x, uid, changes))
  {
    if isHome {
      MarkersAround(x, uid, changes, if action == Grant && clears then [DropComplete] else [], action);
    } else {
      assert [] + changes + [] == changes;
    }
  }

  /** Outside the boundary no call changes anything, complete or not. */
  lemma OutsideIsUntouched(s: Store, home: Tree, uid: u32, a: Attempt, n: NodeId)
    requires !InBoundary(home, home.device, n)
    ensures At(After(s, home, uid, a), n) == At(s, n)
  {
    var ws := ManagePlan(s, home, a.action, uid, a.clears).writes;
    AtCut(s, uid, ws, a.cut, n);
    if home.kind.Directory? {
      assert home in Covered(home, home.device);
      ManageOf(s, home, a.action, uid, a.clears, n);
      WalkElsewhere(s, home, home.device, a.action, uid, n);
    }
    hide ManagePlan, PerformAll;
  }

  /** A call goes through exactly if its home is a directory and every node of the boundary can be changed. */
  lemma CallSucceeds(s: Store, home: Tree, action: Action, uid: u32, clears: bool)
    ensures ManagePlan(s, home, action, uid, clears).ok <==>
            home.kind.Directory? && forall x | x in Covered(home, home.device) :: NodePlan(x, At(s, x.id), action, uid).ok
  {
    hide WalkPlan, NodePlan, Covered;
    WalkSucceeds(s, home, home.device, action, uid);
  }

  function Completed(s: Store, home: Tree, action: Action, uid: u32, clears: bool): Store {
    PerformAll(s, uid, ManagePlan(s, home, action, uid, clears).writes)
  }

  /** What a completed grant leaves at a node of the boundary. */
  lemma AfterGrant(s: Store, home: Tree, uid: u32, clears: bool, x: Tree)
    requires Simple(home) && ManagePlan(s, home, Grant, uid, clears).ok && x in Covered(home, home.device)
    ensures GrantNode(x, At(s, x.id), uid).ok
    ensures At(Completed(s, home, Grant, uid, clears), x.id) == Marked(x.id == home.id, Grant, uid, GrantResult(x, At(s, x.id), uid))
  {
    hide Simple, PerformAll, Covered, GrantResult, GrantNode, DoAll, Marked;
    CompletedIsExact(s, home, Grant, uid, clears, x.id);
    CallSucceeds(s, home, Grant, uid, clears);
    hide ManagePlan;
    GrantDoes(x, At(s, x.id), uid);
  }

  lemma MarkedLists(isHome: bool, action: Action, uid: u32, y: Attrs)
    ensures SameLists(Marked(isHome, action, uid, y), y)
  {
  }

  /** A completed grant repeated changes nothing: neither a list nor a marker, at any node. */
  lemma GrantTwice(s: Store, home: Tree, uid: u32, clears: bool, again: bool, n: NodeId)
    requires Simple(home) && SoundStore(s) && ManagePlan(s, home, Grant, uid, clears).ok
    ensures var once := Completed(s, home, Grant, uid, clears);
            && ManagePlan(once, home, Grant, uid, again).ok
            && At(Completed(once, home, Grant, uid, again), n) == At(once, n)
  {
    var once := Completed(s, home, Grant, uid, clears);
    CallSucceeds(s, home, Grant, uid, clears);
    hide Simple, PerformAll, Covered, GrantResult, GrantNode, DoAll, Marked, Completed, ManagePlan, Sound, SameLists;
    forall x | x in Covered(home, home.device)
      ensures GrantNode(x, At(once, x.id), uid).ok
           && DoAll(At(once, x.id), uid, GrantNode(x, At(once, x.id), uid).writes) == At(once, x.id)
           && Marked(x.id == home.id, Grant, uid, At(once, x.id)) == At(once, x.id)
    {
      assert Sound(At(s, x.id));
      AfterGrant(s, home, uid, clears, x);
      MarkedLists(x.id == home.id, Grant, uid, GrantResult(x, At(s, x.id), uid));
      RegrantNode(x, At(s, x.id), At(once, x.id), uid);
      MarkedTwice(x.id == home.id, Grant, uid, GrantResult(x, At(s, x.id), uid));
    }
    CallSucceeds(once, home, Grant, uid, again);
    CompletedIsExact(once, home, Grant, uid, again, n);
    CompletedUnfold(once, home, Grant, uid, again);
    if InBoundary(home, home.device, n) {
      var x :| x in Covered(home, home.device) && x.id == n;
    }
  }

  lemma CompletedUnfold(s: Store, home: Tree, action: Action, uid: u32, clears: bool)
    ensures Completed(s, home, action, uid, clears) == PerformAll(s, uid, ManagePlan(s, home, action, uid, clears).writes)
  {
  }

  lemma MarkedTwice(isHome: bool, action: Action, uid: u32, y: Attrs)
    ensures Marked(isHome, action, uid, Marked(isHome, action, uid, y)) == Marked(isHome, action, uid, y)
  {
  }

  ghost predicate UntouchedHome(s: Store, home: Tree, uid: u32) {
    uid !in At(s, home.id).complete && forall x | x in Covered(home, home.device) :: Untouched(x, At(s, x.id), uid)
  }

  /** Grant and revoke, for a user that is named nowhere and has no markers: the revocation succeeds, at
      every node of the boundary the lists permit what they permitted, default lists that the grant made
      are gone, and no marker is left; outside nothing changed. */
  lemma GrantThenRevokeRestores(s: Store, home: Tree, uid: u32, clears: bool, n: NodeId)
    requires Simple(home) && SoundStore(s) && UntouchedHome(s, home, uid) && ManagePlan(s, home, Grant, uid, clears).ok
    ensures var once := Completed(s, home, Grant, uid, clears);
            var back := Completed(once, home, Revoke, uid, clears);
            && ManagePlan(once, home, Revoke, uid, clears).ok
            && (forall x | x in Covered(home, home.device) && x.id == n :: Restored(x, At(s, n), At(back, n)))
            && (!InBoundary(home, home.device, n) ==> At(back, n) == At(s, n))
            && At(back, n).complete == At(s, n).complete
  {
    var once := Completed(s, home, Grant, uid, clears);
    CallSucceeds(s, home, Grant, uid, clears);
    hide Simple, PerformAll, Covered, GrantResult, GrantNode, RevokeNode, DoAll, Marked, Completed, ManagePlan, Sound, SameLists, Untouched, Restored;
    forall x | x in Covered(home, home.device)
      ensures RevokeNode(x, At(once, x.id), uid).ok
           && Restored(x, At(s, x.id), DoAll(At(once, x.id), uid, RevokeNode(x, At(once, x.id), uid).writes))
    {
      assert Sound(At(s, x.id));
      AfterGrant(s, home, uid, clears, x);
      MarkedLists(x.id == home.id, Grant, uid, GrantResult(x, At(s, x.id), uid));
      NodeRestored(x, At(s, x.id), At(once, x.id), uid);
    }
    CallSucceeds(once, home, Revoke, uid, clears);
    BothExact(s, home, uid, clears, n);
    forall x | x in Covered(home, home.device) && x.id == n
      ensures Restored(x, At(s, n), At(Completed(once, home, Revoke, uid, clears), n))
    {
      RestoredMarked(x, At(s, n), DoAll(At(once, n), uid, RevokeNode(x, At(once, n), uid).writes), n == home.id, uid);
    }
  }

  lemma RestoredMarked(t: Tree, x: Attrs, z: Attrs, isHome: bool, uid: u32)
    requires Restored(t, x, z)
    ensures Restored(t, x, Marked(isHome, Revoke, uid, z))
  {
    hide Stores, Parse, SameRights, BaseACL;
  }

  lemma BothExact(s: Store, home: Tree, uid: u32, clears: bool, n: NodeId)
    requires Simple(home) && ManagePlan(s, home, Grant, uid, clears).ok && uid !in At(s, home.id).complete
    requires ManagePlan(Completed(s, home, Grant, uid, clears), home, Revoke, uid, clears).ok
    ensures var once := Completed(s, home, Grant, uid, clears);
            var back := Completed(once, home, Revoke, uid, clears);
            && (forall x | x in Covered(home, home.device) && x.id == n ::
                 At(back, n) == Marked(n == home.id, Revoke, uid, DoAll(At(once, n), uid, RevokeNode(x, At(once, n), uid).writes)))
            && (!InBoundary(home, home.device, n) ==> At(back, n) == At(s, n))
            && At(back, n).complete == At(s, n).complete
  {
    var once := Completed(s, home, Grant, uid, clears);
    MarkerComesAndGoes(s, home, uid, clears, n);
    CompletedUnfold(s, home, Grant, uid, clears);
    CompletedUnfold(once, home, Revoke, uid, clears);
    hide Simple, PerformAll, Covered, RevokeNode, DoAll, ManagePlan, At, Marked, Completed;
    CompletedIsExact(s, home, Grant, uid, clears, n);
    CompletedIsExact(once, home, Revoke, uid, clears, n);
  }

  lemma MarkerComesAndGoes(s: Store, home: Tree, uid: u32, clears: bool, n: NodeId)
    requires Simple(home) && ManagePlan(s, home, Grant, uid, clears).ok && uid !in At(s, home.id).complete
    requires ManagePlan(Completed(s, home, Grant, uid, clears), home, Revoke, uid, clears).ok
    ensures At(Completed(Completed(s, home, Grant, uid, clears), home, Revoke, uid, clears), n).complete == At(s, n).complete
  {
    hide Simple, Completed, ManagePlan, At;
    CompleteAfter(s, home, Grant, uid, clears, n);
    CompleteAfter(Completed(s, home, Grant, uid, clears), home, Revoke, uid, clears, n);
  }

  /** The completion marker after a completed call. */
  lemma CompleteAfter(s: Store, home: Tree, action: Action, uid: u32, clears: bool, n: NodeId)
    requires Simple(home) && ManagePlan(s, home, action, uid, clears).ok
    ensures At(Completed(s, home, action, uid, clears), n).complete ==
            if n != home.id then At(s, n).complete
            else if action == Grant then At(s, n).complete + {uid}
            else At(s, n).complete - {uid}
  {
    CompletedIsExact(s, home, action, uid, clears, n);
    HomeIsCovered(home);
    hide Simple, PerformAll, Covered, NodePlan, DoAll, ManagePlan, At;
    if InBoundary(home, home.device, n) {
      var x :| x in Covered(home, home.device) && x.id == n;
      NodeKeepsComplete(x, At(s, n), action, uid);
    }
  }

  lemma HomeIsCovered(home: Tree)
    ensures InBoundary(home, home.device, home.id)
  {
    assert home in Covered(home, home.device);
  }

  lemma NodeKeepsComplete(t: Tree, x: Attrs, action: Action, uid: u32)
    ensures DoAll(x, uid, NodePlan(t, x, action, uid).writes).complete == x.complete
  {
    NodeNeverMarks(t, x, action, uid);
    KeepsComplete(x, uid, NodePlan(t, x, action, uid).writes);
  }

  /** To the access check, a restored node is as it was, for every process and every wish. */
  lemma RestoredDecides(t: Tree, before: Attrs, after: Attrs, f: File, c: Credential, want: u16)
    requires Restored(t, before, after)
    ensures Start(t, before).Success? && Start(t, after).Success?
    ensures Allows(Start(t, after).value, f, c, want) <==> Allows(Start(t, before).value, f, c, want)
  {
    hide Allows, Parse, Valid, Rights, BaseACL;
    AllowsByRights(Start(t, before).value, f, c, want);
    AllowsByRights(Start(t, after).value, f, c, want);
  }
}

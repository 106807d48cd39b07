/**
 The marker removal at the start of a grant, whose error the code ignores: exactly when the status can
 be trusted without it, and a way to go wrong.
 */
module HomeMarker {
  import opened Wrappers
  import opened Acl
  import opened AclAccess
  import opened AclEdits
  import opened AclCodec
  import opened HomeTree
  import opened HomeWalk
  import opened HomeNode
  import opened HomeCrash
  import opened HomeRestore

  // A grant never takes from a node that is granted.

  /** A change that keeps a granted node granted. */
  predicate Gives(t: Tree, c: Change, uid: u32) {
    match c
    case SetAccess(data) => ListHas(Some(data), uid, Required(t))
    case SetDefault(data) => ListHas(Some(data), uid, 7)
    case CreateDefault(data) => ListHas(Some(data), uid, 7)
    case DropDefault => false
    case _ => true
  }

  lemma {:induction false} StaysGranted(t: Tree, x: Attrs, uid: u32, changes: seq<Change>)
    requires Granted(t, x, uid) && forall c | c in changes :: Gives(t, c, uid)
    ensures Granted(t, DoAll(x, uid, changes), uid)
    decreases |changes|
  {
    hide ListHas, Required;
    if changes != [] {
      assert changes[0] in changes;
      StaysGranted(t, Do(x, uid, changes[0]), uid, changes[1..]);
    }
  }

  lemma GrantOnlyGives(t: Tree, x: Attrs, uid: u32, c: Change)
    requires Sound(x) && c in GrantNode(t, x, uid).writes
    ensures Gives(t, c, uid)
  {
    StartIsValid(t, x);
    RequiredIsWithin(t);
    hide GrantUser, Encode, Parse, BaseACL, Base, Required, Valid, Within, SoundList, GrantDefault, ListHas, Gives;
    var a := Start(t, x).value;
    var g := GrantUser(a, uid, Required(t));
    GrantedHas(a, uid, Required(t));
    if c == SetAccess(Encode(g)) {
      AccessGives(t, Encode(g), uid);
    } else {
      GrantedIsSound(a, uid, Required(t));
      DefaultGives(t, x, uid, g, c);
    }
  }

  lemma AccessGives(t: Tree, b: Bytes, uid: u32)
    requires ListHas(Some(b), uid, Required(t))
    ensures Gives(t, SetAccess(b), uid)
  {
  }

  lemma DefaultGives(t: Tree, x: Attrs, uid: u32, g: Entries, c: Change)
    requires Sound(x) && Valid(g) && c in GrantDefault(x, uid, Base(g)).writes
    ensures Gives(t, c, uid)
  {
    SmallIsWithinSeven(7);
    DefaultBase(x, g);
    DefaultWrites(x, uid, Base(g), c);
    var d := Read(x.default_, Base(g)).value;
    hide *;
    GrantedHas(d, uid, 7);
    DefaultsGive(t, Encode(GrantUser(d, uid, 7)), uid);
  }

  lemma DefaultsGive(t: Tree, b: Bytes, uid: u32)
    requires ListHas(Some(b), uid, 7)
    ensures Gives(t, MarkCreated, uid) && Gives(t, SetDefault(b), uid) && Gives(t, CreateDefault(b), uid)
  {
    hide ListHas, Required;
  }

  /** Every other node of the boundary is granted already. */
  predicate OthersGranted(s: Store, home: Tree, uid: u32) {
    forall x | x in Covered(home, home.device) && x.id != home.id :: Granted(x, At(s, x.id), uid)
  }

  lemma OtherStaysGranted(s: Store, home: Tree, uid: u32, a: Attempt, x: Tree)
    requires Simple(home) && SoundStore(s) && home.kind.Directory? && a.action == Grant
    requires x in Covered(home, home.device) && x.id != home.id && Granted(x, At(s, x.id), uid)
    ensures Granted(x, At(After(s, home, uid, a), x.id), uid)
  {
    var changes := PartOfOwn(s, home, uid, a, x);
    hide Granted, Covered, GrantNode, Sound, Gives, After, DoAll, Simple, SameLists;
    assert Sound(At(s, x.id));
    forall c | c in changes ensures Gives(x, c, uid) {
      GrantOnlyGives(x, At(s, x.id), uid, c);
    }
    StaysGranted(x, At(s, x.id), uid, changes);
    SameListsSameGrant(x, At(After(s, home, uid, a), x.id), DoAll(At(s, x.id), uid, changes), uid);
  }

  /** With every other node granted, the status of the home speaks for itself. */
  lemma OthersGrantedIsHonest(s: Store, home: Tree, uid: u32)
    requires Simple(home) && home.kind.Directory? && OthersGranted(s, home, uid)
    ensures Honest(s, home, uid)
  {
    hide ListHas;
    if StatusOf(At(s, home.id), uid) == Enabled {
      forall x | x in Covered(home, home.device) ensures Granted(x, At(s, x.id), uid) {
        if x.id == home.id {
          OnlyHome(home, x);
        }
      }
    }
  }

  lemma OnlyHome(home: Tree, x: Tree)
    requires Simple(home) && x in Covered(home, home.device) && x.id == home.id
    ensures x == home
  {
    if x != home {
      CoveredAllInside(home.children, home.device, x);
    }
  }

  // Cutting a grant right after the home itself.

  lemma {:induction false} WritesToLength(id: NodeId, changes: seq<Change>)
    ensures |WritesTo(id, changes)| == |changes|
  {
    if changes != [] {
      WritesToLength(id, changes[1..]);
    }
  }

  /** The writes of a grant that removes no marker begin with those to the home. */
  lemma HomeComesFirst(s: Store, home: Tree, uid: u32)
    requires home.kind.Directory? && GrantNode(home, At(s, home.id), uid).ok
    ensures var own := GrantNode(home, At(s, home.id), uid).writes;
            Cut(ManagePlan(s, home, Grant, uid, false).writes, |own|) == WritesTo(home.id, own)
  {
    var own := GrantNode(home, At(s, home.id), uid);
    WritesToLength(home.id, own.writes);
    hide GrantNode, WalkChildren, WritesTo;
    var ws := ManagePlan(s, home, Grant, uid, false).writes;
    var walk := WalkPlan(s, home, home.device, Grant, uid).writes;
    assert WritesTo(home.id, own.writes) <= walk;
    assert [] + walk == walk;
    assert walk <= ws;
  }

  lemma StatusFrom(home: Tree, x: Attrs, uid: u32)
    requires home.kind.Directory? && Granted(home, x, uid) && uid in x.complete
    ensures StatusOf(x, uid) == Enabled
  {
    hide Parse, UserHas;
  }

  /** A grant that leaves an old marker in place and stops after the home says "enabled" while another
      node of the boundary is not granted. */
  lemma UnclearedGrantMisleads(s: Store, home: Tree, uid: u32, x: Tree) returns (a: Attempt)
    requires Simple(home) && SoundStore(s) && home.kind.Directory? && GrantNode(home, At(s, home.id), uid).ok
    requires uid in At(s, home.id).complete
    requires x in Covered(home, home.device) && x.id != home.id && !Granted(x, At(s, x.id), uid)
    ensures a.action == Grant && !a.clears
    ensures var r := After(s, home, uid, a);
            StatusOf(At(r, home.id), uid) == Enabled && !Granted(x, At(r, x.id), uid)
  {
    var own := GrantNode(home, At(s, home.id), uid).writes;
    a := Attempt(Grant, |own|, false);
    HomeComesFirst(s, home, uid);
    var done := WritesTo(home.id, own);
    AtAfter(s, uid, done, home.id);
    AtAfter(s, uid, done, x.id);
    OfWritesTo(home.id, own, home.id);
    OfWritesTo(home.id, own, x.id);
    assert Sound(At(s, home.id));
    GrantGives(home, At(s, home.id), uid);
    NodeKeepsComplete(home, At(s, home.id), Grant, uid);
    hide ManagePlan, Granted, GrantNode, Covered, WritesTo, Of, PerformAll, Sound, StatusOf, Simple;
    StatusFrom(home, At(PerformAll(s, uid, done), home.id), uid);
  }

  /** Exactly when a grant can be interrupted anywhere without the status ever misleading: when the
      marker removal takes effect, or there is no marker, or everything else was granted already. */
  lemma GrantIsHonestExactlyIf(s: Store, home: Tree, uid: u32, clears: bool)
    requires Simple(home) && SoundStore(s) && home.kind.Directory? && GrantNode(home, At(s, home.id), uid).ok
    requires Honest(s, home, uid)
    ensures (forall cut :: Honest(After(s, home, uid, Attempt(Grant, cut, clears)), home, uid)) <==>
            clears || uid !in At(s, home.id).complete || OthersGranted(s, home, uid)
  {
    if clears || uid !in At(s, home.id).complete {
      hide Honest, After, SoundStore, Simple, GrantNode;
      forall cut ensures Honest(After(s, home, uid, Attempt(Grant, cut, clears)), home, uid) {
        StaysHonest(s, home, uid, Attempt(Grant, cut, clears));
      }
    } else if OthersGranted(s, home, uid) {
      hide Honest, After, Sound, Granted, Covered, Simple, GrantNode;
      forall cut ensures Honest(After(s, home, uid, Attempt(Grant, cut, clears)), home, uid) {
        var r := After(s, home, uid, Attempt(Grant, cut, clears));
        forall x | x in Covered(home, home.device) && x.id != home.id ensures Granted(x, At(r, x.id), uid) {
          OtherStaysGranted(s, home, uid, Attempt(Grant, cut, clears), x);
        }
        OthersGrantedIsHonest(r, home, uid);
      }
    } else {
      hide After, Sound, Granted, Covered, Simple, GrantNode, StatusOf;
      var x :| x in Covered(home, home.device) && x.id != home.id && !Granted(x, At(s, x.id), uid);
      var a := UnclearedGrantMisleads(s, home, uid, x);
      assert !Honest(After(s, home, uid, Attempt(Grant, a.cut, clears)), home, uid);
    }
  }

  // How to get there.

  lemma StoresNobody(data: Option<Bytes>, a: Entries, uid: u32, wanted: u16)
    requires Stores(data, a) && !HasUser(a, uid)
    ensures !ListHas(data, uid, wanted)
  {
    var b := Parse(data.value).value;
    hide Parse, Within, Meet, Rights;
    FirstUser(b, uid);
    NoUserRight(a, uid);
    if e :| e in b && IsUser(e, uid) {
      RightsOf(b, e);
    }
  }

  /** An access list with the rights of a list that does not name the user gives it nothing. */
  lemma AccessOfNobody(t: Tree, z: Attrs, a: Entries, uid: u32, wanted: u16)
    requires Start(t, z).Success? && SameRights(Start(t, z).value, a) && !HasUser(a, uid)
    ensures !ListHas(z.access, uid, wanted) && !Malformed(z.access)
  {
    if z.access.Some? {
      StoresNobody(z.access, a, uid, wanted);
    }
    hide Parse, SameRights, UserHas;
  }

  lemma RestoredIsNotGranted(t: Tree, x: Attrs, z: Attrs, uid: u32)
    requires Restored(t, x, z) && Untouched(t, x, uid)
    ensures !Granted(t, z, uid)
  {
    AccessOfNobody(t, z, Start(t, x).value, uid, Required(t));
    hide Stores, Parse, ListHas, HasUser, Start, SameRights;
  }

  lemma RestoredIsReadable(t: Tree, x: Attrs, z: Attrs, uid: u32)
    requires Restored(t, x, z) && t.kind.Directory?
    ensures GrantNode(t, z, uid).ok
  {
    hide Parse, GrantUser, Encode, BaseACL, Base, Required, SameRights;
  }

  /** A revocation cut off just before it removes the marker has revoked every node. */
  lemma AlmostRevoked(s: Store, home: Tree, uid: u32, x: Tree) returns (a: Attempt)
    requires Simple(home) && ManagePlan(s, home, Revoke, uid, true).ok && x in Covered(home, home.device)
    ensures a.action == Revoke && a == Attempt(Revoke, |ManagePlan(s, home, Revoke, uid, true).writes| - 1, true)
    ensures At(After(s, home, uid, a), x.id) == DoAll(At(s, x.id), uid, RevokeNode(x, At(s, x.id), uid).writes)
  {
    var walk := WalkPlan(s, home, home.device, Revoke, uid);
    var ws := ManagePlan(s, home, Revoke, uid, true).writes;
    a := Attempt(Revoke, |ws| - 1, true);
    WalkOf(s, home, home.device, Revoke, uid, x);
    assert ws == walk.writes + [Write(home.id, DropComplete)];
    assert Cut(ws, |ws| - 1) == walk.writes;
    AtAfter(s, uid, walk.writes, x.id);
    hide WalkPlan, RevokeNode, Covered, Simple, DoAll, Of, PerformAll;
  }

  /** Every home with anything in it can be brought there: grant it, interrupt a revocation just before
      its last write, and interrupt another grant, whose marker removal fails, right after the home
      itself.  The status is "enabled", and `x` is not granted. */
  lemma IgnoredRemovalMisleads(s: Store, home: Tree, uid: u32, x: Tree) returns (attempts: seq<Attempt>)
    requires Simple(home) && SoundStore(s) && UntouchedHome(s, home, uid) && ManagePlan(s, home, Grant, uid, true).ok
    requires x in Covered(home, home.device) && x.id != home.id
    ensures |attempts| == 3 && attempts[0].action == Grant && attempts[1].action == Revoke && attempts[2].action == Grant
    ensures attempts[0].clears && !attempts[2].clears
    ensures var r := AfterAll(s, home, uid, attempts);
            StatusOf(At(r, home.id), uid) == Enabled && !Granted(x, At(r, x.id), uid)
  {
    var first := Attempt(Grant, |ManagePlan(s, home, Grant, uid, true).writes|, true);
    var s1 := Completed(s, home, Grant, uid, true);
    assert After(s, home, uid, first) == s1;
    assert home.kind.Directory?;
    var second := RevokedExceptMarker(s, home, uid, x);
    hide ManagePlan, Completed, Simple, Covered, SoundStore, UntouchedHome, After, Granted, StatusOf, Sound;
    StaysSound(s, home, uid, first);
    StaysSound(s1, home, uid, second);
    var s2 := After(s1, home, uid, second);
    var third := UnclearedGrantMisleads(s2, home, uid, x);
    attempts := [first, second, third];
    ThreeAttempts(s, home, uid, first, second, third);
  }

  lemma ThreeAttempts(s: Store, home: Tree, uid: u32, a: Attempt, b: Attempt, c: Attempt)
    ensures AfterAll(s, home, uid, [a, b, c]) == After(After(After(s, home, uid, a), home, uid, b), home, uid, c)
  {
    hide After;
    assert [a, b, c][1..] == [b, c] && [b, c][1..] == [c] && [c][1..] == [];
    assert AfterAll(s, home, uid, [a, b, c]) == AfterAll(After(s, home, uid, a), home, uid, [b, c]);
    assert AfterAll(After(After(s, home, uid, a), home, uid, b), home, uid, [c])
        == AfterAll(After(After(After(s, home, uid, a), home, uid, b), home, uid, c), home, uid, []);
  }

  lemma RevokedExceptMarker(s: Store, home: Tree, uid: u32, x: Tree) returns (a: Attempt)
    requires Simple(home) && SoundStore(s) && UntouchedHome(s, home, uid) && ManagePlan(s, home, Grant, uid, true).ok
    requires x in Covered(home, home.device) && x.id != home.id
    ensures a.action == Revoke
    ensures var s1 := Completed(s, home, Grant, uid, true);
            var r := After(s1, home, uid, a);
            uid in At(r, home.id).complete && GrantNode(home, At(r, home.id), uid).ok && !Granted(x, At(r, x.id), uid)
  {
    var s1 := Completed(s, home, Grant, uid, true);
    GrantThenRevokeRestores(s, home, uid, true, x.id);
    a := AlmostRevoked(s1, home, uid, x);
    var again := AlmostRevoked(s1, home, uid, home);
    CompleteAfter(s, home, Grant, uid, true, home.id);
    NodeKeepsComplete(home, At(s1, home.id), Revoke, uid);
    hide ManagePlan, Completed, Simple, After, Restored, GrantNode, RevokeNode, Granted, Sound, Untouched;
    assert home in Covered(home, home.device);
    hide Covered;
    AlmostRestored(s, home, uid, home);
    AlmostRestored(s, home, uid, x);
    RestoredIsReadable(home, At(s, home.id), At(After(s1, home, uid, a), home.id), uid);
    RestoredIsNotGranted(x, At(s, x.id), At(After(s1, home, uid, a), x.id), uid);
  }

  lemma AlmostRestored(s: Store, home: Tree, uid: u32, x: Tree)
    requires Simple(home) && SoundStore(s) && UntouchedHome(s, home, uid) && ManagePlan(s, home, Grant, uid, true).ok
    requires x in Covered(home, home.device)
    ensures var y := At(Completed(s, home, Grant, uid, true), x.id);
            Restored(x, At(s, x.id), DoAll(y, uid, RevokeNode(x, y, uid).writes))
  {
    hide Simple, PerformAll, Covered, GrantResult, GrantNode, RevokeNode, DoAll, Marked, Completed, ManagePlan, Sound, SameLists, Untouched, Restored;
    assert Sound(At(s, x.id));
    AfterGrant(s, home, uid, true, x);
    MarkedLists(x.id == home.id, Grant, uid, GrantResult(x, At(s, x.id), uid));
    NodeRestored(x, At(s, x.id), At(Completed(s, home, Grant, uid, true), x.id), uid);
  }

  // What the other statuses do not say.

  lemma RestoredIsDisabled(t: Tree, x: Attrs, z: Attrs, uid: u32)
    requires Restored(t, x, z) && Untouched(t, x, uid) && t.kind.Directory?
    ensures StatusOf(z, uid) == Disabled
  {
    AccessOfNobody(t, z, Start(t, x).value, uid, 7);
    hide Parse, UserHas, HasUser, Start, SameRights;
    assert !Malformed(z.access);
    if x.default_.Some? {
      StoresNobody(z.default_, Parse(x.default_.value).value, uid, 7);
      assert !Malformed(z.default_);
    }
    hide ListHas, Restored, Stores, Untouched;
  }

  lemma HomeIsRevokedFirst(s: Store, home: Tree, uid: u32)
    requires home.kind.Directory? && RevokeNode(home, At(s, home.id), uid).ok
    ensures var own := RevokeNode(home, At(s, home.id), uid).writes;
            Cut(ManagePlan(s, home, Revoke, uid, true).writes, |own|) == WritesTo(home.id, own)
  {
    var own := RevokeNode(home, At(s, home.id), uid);
    WritesToLength(home.id, own.writes);
    hide RevokeNode, WalkChildren, WritesTo;
    var walk := WalkPlan(s, home, home.device, Revoke, uid).writes;
    assert WritesTo(home.id, own.writes) <= walk;
    assert walk <= ManagePlan(s, home, Revoke, uid, true).writes;
  }

  /** "Disabled" does not mean that nothing is granted: a revocation cut off right after the home itself
      says so while every other node is still granted. */
  lemma DisabledIsNotClean(s: Store, home: Tree, uid: u32, x: Tree) returns (a: Attempt)
    requires Simple(home) && SoundStore(s) && UntouchedHome(s, home, uid) && ManagePlan(s, home, Grant, uid, true).ok
    requires x in Covered(home, home.device) && x.id != home.id
    ensures a.action == Revoke
    ensures var r := After(Completed(s, home, Grant, uid, true), home, uid, a);
            StatusOf(At(r, home.id), uid) == Disabled && Granted(x, At(r, x.id), uid)
  {
    var s1 := Completed(s, home, Grant, uid, true);
    GrantThenRevokeRestores(s, home, uid, true, home.id);
    CallSucceeds(s1, home, Revoke, uid, true);
    CompletedGrant(s, home, uid, true);
    assert home in Covered(home, home.device);
    var own := RevokeNode(home, At(s1, home.id), uid);
    a := Attempt(Revoke, |own.writes|, true);
    hide ManagePlan, Granted, RevokeNode, Covered, WritesTo, Of, Sound, StatusOf, Simple, Restored, Untouched, Completed;
    HomeIsRevokedFirst(s1, home, uid);
    AlmostRestored(s, home, uid, home);
    AtAfter(s1, uid, WritesTo(home.id, own.writes), home.id);
    AtAfter(s1, uid, WritesTo(home.id, own.writes), x.id);
    OfWritesTo(home.id, own.writes, home.id);
    OfWritesTo(home.id, own.writes, x.id);
    CompletedUnfold(s, home, Grant, uid, true);
    hide PerformAll;
    RestoredIsDisabled(home, At(s, home.id), DoAll(At(s1, home.id), uid, own.writes), uid);
  }
}

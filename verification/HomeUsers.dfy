/**
 Several users of one home: a call for one user leaves to every other what a grant gave it, and the status
 of each is right after any calls for any users.
 */
module HomeUsers {
  import opened Wrappers
  import opened Acl
  import opened AclAccess
  import opened AclEdits
  import opened AclCodec
  import opened AclOrder
  import opened HomeTree
  import opened HomeWalk
  import opened HomeNode
  import opened HomeCrash
  import opened HomeRestore
  import opened HomeOutcomes
  import opened HomeFrame
  import HomeStatus

  // Lists.

  lemma UserInRights(a: Entries, uid: u32)
    requires Distinct(a)
    ensures HasUser(a, uid) <==> (USER, uid) in Rights(a)
    ensures HasUser(a, uid) <==> (USER, uid) in RawRights(a)
  {
    hide Rights, RawRights, Meet;
    if HasUser(a, uid) {
      var e :| e in a && IsUser(e, uid);
      RightsOf(a, e);
    }
    if (USER, uid) in Rights(a) {
      var e := RightsFrom(a, (USER, uid));
      assert IsUser(e, uid);
    }
    if (USER, uid) in RawRights(a) {
      var e := RawFrom(a, (USER, uid));
      assert IsUser(e, uid);
    }
  }

  lemma GrantKeepsHas(a: Entries, uid: u32, perm: u16, other: u32, wanted: u16)
    requires Valid(a) && Within(perm, 7) && uid != other
    ensures UserHas(GrantUser(a, uid, perm), other, wanted) <==> UserHas(a, other, wanted)
  {
    hide *;
    var g := GrantUser(a, uid, perm);
    GrantRights(a, uid, perm);
    GrantFrame(a, uid, perm, NotOwned(other), Credential(other, {}), wanted);
    ValidIsDistinct(a);
    ValidIsDistinct(g);
    UserInRights(a, other);
    UserInRights(g, other);
    HasMeans(a, other, wanted);
    HasMeans(g, other, wanted);
    KeyApart(uid, other);
  }

  lemma KeyApart(uid: u32, other: u32)
    requires uid != other
    ensures (USER, uid) != (USER, other)
  {
  }

  lemma RevokeKeepsUser(a: Entries, uid: u32, other: u32)
    requires Valid(a) && HasUser(a, uid) && uid != other
    ensures Valid(RevokeUser(a, uid).0) && (HasUser(RevokeUser(a, uid).0, other) <==> HasUser(a, other))
  {
    hide *;
    var r := RevokeUser(a, uid).0;
    RevokeRights(a, uid);
    ValidIsDistinct(a);
    ValidIsDistinct(r);
    UserInRights(a, other);
    UserInRights(r, other);
    KeyApart(uid, other);
  }

  /** A revocation takes nothing from another user; on a tight list it gives nothing either. */
  lemma RevokeKeepsHas(a: Entries, uid: u32, other: u32, wanted: u16)
    requires Valid(a) && HasUser(a, uid) && uid != other
    ensures var r := RevokeUser(a, uid).0;
            && (UserHas(a, other, wanted) ==> UserHas(r, other, wanted))
            && (Tight(a) ==> (UserHas(r, other, wanted) <==> UserHas(a, other, wanted)))
  {
    hide *;
    var r := RevokeUser(a, uid).0;
    RevokeKeepsUser(a, uid, other);
    HasMeans(a, other, wanted);
    HasMeans(r, other, wanted);
    RevokeTakesNothing(a, uid, NotOwned(other), Credential(other, {}), wanted);
    if Tight(a) {
      RevokeFrame(a, uid, NotOwned(other), Credential(other, {}), wanted);
    }
  }

  lemma WrittenHas(a: Entries, uid: u32, wanted: u16)
    requires Valid(a)
    ensures ListHas(Some(Encode(a)), uid, wanted) <==> UserHas(a, uid, wanted)
    ensures Parse(Encode(a)).Success? && (Tight(a) ==> Tight(Parse(Encode(a)).value))
  {
    hide *;
    ReadBack(a);
    ListHasOf(Encode(a), Sorted(a), uid, wanted);
    HasMeans(a, uid, wanted);
    HasMeans(Sorted(a), uid, wanted);
    AllowsByRights(a, NotOwned(uid), Credential(uid, {}), wanted);
    AllowsByRights(Sorted(a), NotOwned(uid), Credential(uid, {}), wanted);
  }

  /** Every readable group-class permission is within the mask. */
  predicate TightList(data: Option<Bytes>) {
    data.Some? && Parse(data.value).Success? ==> Tight(Parse(data.value).value)
  }

  /** What a call for one user may make of a list, seen by another user. */
  ghost predicate Kept(before: Option<Bytes>, after: Option<Bytes>, other: u32) {
    && (forall wanted :: ListHas(before, other, wanted) ==> ListHas(after, other, wanted))
    && (TightList(before) ==> TightList(after) && forall wanted :: ListHas(after, other, wanted) ==> ListHas(before, other, wanted))
  }

  lemma KeptSame(data: Option<Bytes>, other: u32)
    ensures Kept(data, data, other)
  {
  }

  /** A list without the other user, or none. */
  lemma NobodyThere(data: Option<Bytes>, a: Entries, other: u32)
    requires Valid(a) && if data.Some? then Parse(data.value) == Success(a) else !HasUser(a, other)
    ensures forall wanted :: ListHas(data, other, wanted) <==> UserHas(a, other, wanted)
    ensures data.Some? && TightList(data) ==> Tight(a)
  {
    hide Parse, HasUser, Valid, UserHas, Tight;
    forall wanted ensures ListHas(data, other, wanted) <==> UserHas(a, other, wanted) {
      HasMeans(a, other, wanted);
    }
  }

  lemma KeptGrant(data: Option<Bytes>, a: Entries, uid: u32, perm: u16, other: u32)
    requires Valid(a) && Within(perm, 7) && uid != other
    requires if data.Some? then Parse(data.value) == Success(a) else !HasUser(a, other)
    ensures Kept(data, Some(Encode(GrantUser(a, uid, perm))), other)
  {
    hide *;
    var g := GrantUser(a, uid, perm);
    GrantIsValid(a, uid, perm);
    NobodyThere(data, a, other);
    forall wanted ensures ListHas(Some(Encode(g)), other, wanted) <==> ListHas(data, other, wanted) {
      GrantKeepsHas(a, uid, perm, other, wanted);
      WrittenHas(g, other, wanted);
    }
    WrittenHas(g, other, 0);
    KeptFrom(data, Encode(g), other);
  }

  lemma KeptFrom(data: Option<Bytes>, b: Bytes, other: u32)
    requires Parse(b).Success? && Tight(Parse(b).value)
    requires forall wanted :: ListHas(data, other, wanted) ==> ListHas(Some(b), other, wanted)
    requires TightList(data) ==> forall wanted :: ListHas(Some(b), other, wanted) ==> ListHas(data, other, wanted)
    ensures Kept(data, Some(b), other)
  {
    hide Parse, ListHas, Tight;
  }

  lemma KeptRevoke(data: Option<Bytes>, a: Entries, uid: u32, other: u32)
    requires Valid(a) && HasUser(a, uid) && uid != other && data.Some? && Parse(data.value) == Success(a)
    ensures Kept(data, Some(Encode(RevokeUser(a, uid).0)), other)
  {
    hide *;
    var r := RevokeUser(a, uid).0;
    RevokeRights(a, uid);
    NobodyThere(data, a, other);
    forall wanted
      ensures ListHas(data, other, wanted) ==> ListHas(Some(Encode(r)), other, wanted)
      ensures TightList(data) ==> (ListHas(Some(Encode(r)), other, wanted) ==> ListHas(data, other, wanted))
    {
      RevokeKeepsHas(a, uid, other, wanted);
      WrittenHas(r, other, wanted);
    }
    WrittenHas(r, other, 0);
    KeptFrom(data, Encode(r), other);
  }

  // One node.

  predicate LeavesDefault(c: Change) {
    !c.SetDefault? && !c.CreateDefault? && !c.DropDefault?
  }

  lemma {:induction false} KeepsDefault(x: Attrs, uid: u32, changes: seq<Change>)
    requires forall c | c in changes :: LeavesDefault(c)
    ensures DoAll(x, uid, changes).default_ == x.default_
    decreases |changes|
  {
    if changes != [] {
      assert changes[0] in changes;
      KeepsDefault(Do(x, uid, changes[0]), uid, changes[1..]);
    }
  }

  /** A list of changes of which one, at `i`, changes the default list. */
  lemma OneDefault(x: Attrs, uid: u32, changes: seq<Change>, i: nat)
    requires i < |changes| && forall j | 0 <= j < |changes| && j != i :: LeavesDefault(changes[j])
    ensures DoAll(x, uid, changes).default_ == Do(x, uid, changes[i]).default_
  {
    hide LeavesDefault;
    var c := changes[i];
    assert changes == changes[..i] + ([c] + changes[i + 1..]);
    var y := DoAll(x, uid, changes[..i]);
    KeepsDefault(x, uid, changes[..i]);
    HomeStatus.DoBoth(x, uid, changes[..i], [c] + changes[i + 1..]);
    DoFirst(y, uid, c, changes[i + 1..]);
    KeepsDefault(Do(y, uid, c), uid, changes[i + 1..]);
    hide DoAll;
  }

  lemma GrantDefaultPart(t: Tree, x: Attrs, uid: u32, part: seq<Change>)
    requires part <= GrantNode(t, x, uid).writes
    ensures var y := DoAll(x, uid, part);
            || y.default_ == x.default_
            || (Start(t, x).Success?
                && var base := Base(GrantUser(Start(t, x).value, uid, Required(t)));
                   Read(x.default_, base).Success? && y.default_ == Some(Encode(GrantUser(Read(x.default_, base).value, uid, 7))))
  {
    hide GrantUser, Encode, Parse, BaseACL, Base, Required, DoAll;
    if |part| == 0 || forall c | c in part :: LeavesDefault(c) {
      KeepsDefault(x, uid, part);
    } else {
      GrantDefaultShape(t, x, uid);
      var i := |part| - 1;
      assert forall j | 0 <= j < i :: LeavesDefault(part[j]);
      OneDefault(x, uid, part, i);
    }
  }

  /** Only the last write of a grant to a node changes its default list. */
  lemma GrantDefaultShape(t: Tree, x: Attrs, uid: u32)
    ensures var ws := GrantNode(t, x, uid).writes;
            && (forall j | 0 <= j < |ws| - 1 :: LeavesDefault(ws[j]))
            && (ws != [] && !LeavesDefault(ws[|ws| - 1]) ==>
                 Start(t, x).Success?
                 && var base := Base(GrantUser(Start(t, x).value, uid, Required(t)));
                    Read(x.default_, base).Success?
                    && Do(x, uid, ws[|ws| - 1]).default_ == Some(Encode(GrantUser(Read(x.default_, base).value, uid, 7))))
  {
    hide GrantUser, Encode, Parse, BaseACL, Base, Required;
  }

  lemma RevokeDefaultPart(t: Tree, x: Attrs, uid: u32, part: seq<Change>)
    requires part <= RevokeNode(t, x, uid).writes
    ensures var y := DoAll(x, uid, part);
            || y.default_ == x.default_
            || (x.default_.Some? && Parse(x.default_.value).Success?
                && var (rest, removed) := RevokeUser(Parse(x.default_.value).value, uid);
                   || (y.default_ == None && !HasNamedEntries(rest))
                   || (y.default_ == Some(Encode(rest)) && removed))
  {
    hide RevokeUser, Encode, Parse, BaseACL, HasNamedEntries, DoAll;
    RevokeDefaultShape(t, x, uid);
    if part == [] || LeavesDefault(part[0]) {
      assert forall c | c in part :: LeavesDefault(c);
      KeepsDefault(x, uid, part);
    } else {
      OneDefault(x, uid, part, 0);
    }
  }

  /** Only the first write of a revocation to a node changes its default list. */
  lemma RevokeDefaultShape(t: Tree, x: Attrs, uid: u32)
    ensures var ws := RevokeNode(t, x, uid).writes;
            && (forall j | 0 < j < |ws| :: LeavesDefault(ws[j]))
            && (ws != [] && !LeavesDefault(ws[0]) ==>
                 x.default_.Some? && Parse(x.default_.value).Success?
                 && var (rest, removed) := RevokeUser(Parse(x.default_.value).value, uid);
                    || (Do(x, uid, ws[0]).default_ == None && !HasNamedEntries(rest))
                    || (Do(x, uid, ws[0]).default_ == Some(Encode(rest)) && removed))
  {
    hide RevokeUser, Encode, Parse, BaseACL, HasNamedEntries;
  }

  lemma KeptDrop(a: Entries, data: Bytes, uid: u32, other: u32)
    requires Valid(a) && Parse(data) == Success(a) && uid != other && !HasNamedEntries(RevokeUser(a, uid).0)
    ensures Kept(Some(data), None, other)
  {
    var r := RevokeUser(a, uid).0;
    if HasUser(a, other) {
      if HasUser(a, uid) {
        RevokeKeepsUser(a, uid, other);
      } else {
        RevokeNobody(a, uid);
      }
      UserIsNamed(r, other);
    }
    hide Parse, HasUser, Valid, UserHas, Tight, RevokeUser, HasNamedEntries;
    forall wanted ensures !ListHas(Some(data), other, wanted) {
      HasMeans(a, other, wanted);
    }
  }

  lemma UserIsNamed(a: Entries, uid: u32)
    requires HasUser(a, uid)
    ensures HasNamedEntries(a)
  {
  }

  lemma PartKeepsDefault(t: Tree, x: Attrs, action: Action, uid: u32, part: seq<Change>, other: u32)
    requires Sound(x) && part <= NodePlan(t, x, action, uid).writes && uid != other
    ensures Kept(x.default_, DoAll(x, uid, part).default_, other)
  {
    KeptSame(x.default_, other);
    SmallIsWithinSeven(7);
    StartIsValid(t, x);
    RequiredIsWithin(t);
    HomeStatus.SoundDefault(x);
    hide GrantUser, RevokeUser, Encode, Parse, BaseACL, Base, Required, HasNamedEntries, DoAll, Kept, Sound, Valid, HasUser, GrantNode, RevokeNode;
    if action == Grant {
      GrantDefaultPart(t, x, uid, part);
      if DoAll(x, uid, part).default_ != x.default_ {
        var g := GrantUser(Start(t, x).value, uid, Required(t));
        GrantIsValid(Start(t, x).value, uid, Required(t));
        BaseIsValid(g);
        BaseHasNoUser(g, other);
        KeptGrant(x.default_, Read(x.default_, Base(g)).value, uid, 7, other);
      }
    } else {
      RevokeDefaultPart(t, x, uid, part);
      if DoAll(x, uid, part).default_ != x.default_ {
        var a := Parse(x.default_.value).value;
        RemovedMeansHad(x, t, uid);
        if DoAll(x, uid, part).default_ == None {
          KeptDrop(a, x.default_.value, uid, other);
        } else {
          KeptRevoke(x.default_, a, uid, other);
        }
      }
    }
  }

  lemma PartKeepsAccess(t: Tree, x: Attrs, action: Action, uid: u32, part: seq<Change>, other: u32)
    requires Sound(x) && part <= NodePlan(t, x, action, uid).writes && uid != other
    ensures Kept(x.access, DoAll(x, uid, part).access, other)
  {
    KeptSame(x.access, other);
    StartIsValid(t, x);
    RequiredIsWithin(t);
    ModeIsValid(t.mode);
    AccessOfPart(t, x, action, uid, part);
    hide GrantUser, RevokeUser, Encode, Parse, BaseACL, Required, DoAll, Kept, Sound, Valid, HasUser, NodePlan;
    if DoAll(x, uid, part).access != x.access {
      RemovedMeansHad(x, t, uid);
      if action == Grant {
        KeptGrant(x.access, Start(t, x).value, uid, Required(t), other);
      } else {
        assert x.access.Some?;
        KeptRevoke(x.access, Start(t, x).value, uid, other);
      }
    }
  }

  // One call for another user.

  lemma {:induction false} CompleteOfOthers(x: Attrs, uid: u32, changes: seq<Change>, other: u32)
    requires uid != other
    ensures other in DoAll(x, uid, changes).complete <==> other in x.complete
    decreases |changes|
  {
    if changes != [] {
      CompleteOfOthers(Do(x, uid, changes[0]), uid, changes[1..], other);
    }
  }

  /** What a call for one user, however it ends, leaves at a node of the boundary for another. */
  lemma CallKeeps(s: Store, home: Tree, uid: u32, trial: Trial, other: u32, x: Tree)
    requires Simple(home) && SoundStore(s) && uid != other && x in Covered(home, home.device)
    ensures var (before, after) := (At(s, x.id), At(AfterTrial(s, home, uid, trial), x.id));
            && Kept(before.access, after.access, other) && Kept(before.default_, after.default_, other)
            && (other in after.complete <==> other in before.complete)
  {
    var a := TrialIsAttempt(s, home, uid, trial);
    var before := At(s, x.id);
    assert Sound(before);
    var after, upTo := At(AfterTrial(s, home, uid, trial), x.id), At(After(s, home, uid, a), x.id);
    assert upTo.access == after.access && upTo.default_ == after.default_;
    KeptSame(before.access, other);
    KeptSame(before.default_, other);
    AtAfter(s, uid, Performed(trial.Remaining(), TrialWrites(s, home, uid, trial)), x.id);
    CompleteOfOthers(before, uid, Of(Performed(trial.Remaining(), TrialWrites(s, home, uid, trial)), x.id), other);
    hide Simple, Covered, NodePlan, Sound, SoundStore, UpToCreated, DoAll, Trial.Clears, Kept, Performed, Of;
    if home.kind.Directory? {
      hide After;
      var part := PartOfOwn(s, home, uid, a, x);
      PartKeepsAccess(x, before, a.action, uid, part, other);
      PartKeepsDefault(x, before, a.action, uid, part, other);
    } else {
      NothingHappens(s, home, uid, a);
    }
  }

  /** Users do not disturb each other: whatever a grant gave a user at a file or directory, no call for another
      user takes away, whatever is refused and wherever it is stopped; and "enabled" stays "enabled". */
  lemma OthersStayGranted(s: Store, home: Tree, uid: u32, trial: Trial, other: u32, x: Tree)
    requires Simple(home) && SoundStore(s) && uid != other && x in Covered(home, home.device)
    ensures var r := AfterTrial(s, home, uid, trial);
            && (Granted(x, At(s, x.id), other) ==> Granted(x, At(r, x.id), other))
            && (StatusOf(At(s, home.id), other) == Enabled ==> StatusOf(At(r, home.id), other) == Enabled)
  {
    assert home in Covered(home, home.device);
    hide *;
    CallKeeps(s, home, uid, trial, other, x);
    CallKeeps(s, home, uid, trial, other, home);
    KeptGranted(x, At(s, x.id), At(AfterTrial(s, home, uid, trial), x.id), other);
    KeptEnabled(At(s, home.id), At(AfterTrial(s, home, uid, trial), home.id), other);
  }

  lemma KeptGranted(t: Tree, x: Attrs, y: Attrs, other: u32)
    requires Kept(x.access, y.access, other) && Kept(x.default_, y.default_, other)
    ensures Granted(t, x, other) ==> Granted(t, y, other)
  {
    hide ListHas, TightList, Required;
  }

  lemma KeptEnabled(x: Attrs, y: Attrs, other: u32)
    requires Kept(x.access, y.access, other) && Kept(x.default_, y.default_, other) && (other in y.complete <==> other in x.complete)
    ensures StatusOf(x, other) == Enabled ==> StatusOf(y, other) == Enabled
  {
    PresentLists();
    hide ListHas, TightList, Malformed;
  }

  lemma PresentLists()
    ensures forall data, uid, wanted :: ListHas(data, uid, wanted) ==> data.Some? && !Malformed(data)
  {
    hide UserHas, Parse;
  }

  // Any calls for any users.

  /** If the home is marked complete for the user, no permission in its lists is beyond the mask. */
  predicate Ready(s: Store, home: Tree, uid: u32) {
    uid in At(s, home.id).complete ==> TightList(At(s, home.id).access) && TightList(At(s, home.id).default_)
  }

  lemma OtherStaysHonest(s: Store, home: Tree, uid: u32, trial: Trial, other: u32)
    requires Simple(home) && SoundStore(s) && uid != other
    requires Honest(s, home, other) && Ready(s, home, other)
    ensures var r := AfterTrial(s, home, uid, trial); Honest(r, home, other) && Ready(r, home, other)
  {
    var r := AfterTrial(s, home, uid, trial);
    assert home in Covered(home, home.device);
    hide Simple, Covered, SoundStore, AfterTrial, ListHas, Parse, Malformed, TightList, Granted;
    PresentLists();
    CallKeeps(s, home, uid, trial, other, home);
    forall x | x in Covered(home, home.device)
      ensures Granted(x, At(s, x.id), other) ==> Granted(x, At(r, x.id), other)
    {
      OthersStayGranted(s, home, uid, trial, other, x);
    }
    if StatusOf(At(r, home.id), other) == Enabled {
      assert other in At(s, home.id).complete;
      assert StatusOf(At(s, home.id), other) == Enabled;
    }
  }

  lemma TightWritten(a: Entries)
    requires Valid(a) && Tight(a)
    ensures TightList(Some(Encode(a)))
  {
    hide Valid, Tight, Parse, Encode, Sorted;
    ReadBack(a);
  }

  lemma GrantedIsTight(a: Entries, uid: u32, perm: u16)
    requires Valid(a) && Within(perm, 7)
    ensures Valid(GrantUser(a, uid, perm)) && TightList(Some(Encode(GrantUser(a, uid, perm))))
  {
    hide *;
    GrantIsValid(a, uid, perm);
    TightWritten(GrantUser(a, uid, perm));
  }

  lemma RevokedWrittenTight(a: Entries, uid: u32)
    requires Valid(a) && RevokeUser(a, uid).1
    ensures TightList(Some(Encode(RevokeUser(a, uid).0)))
  {
    RemovedHad(a, uid);
    hide *;
    RevokeRights(a, uid);
    TightWritten(RevokeUser(a, uid).0);
  }

  lemma RemovedHad(a: Entries, uid: u32)
    requires RevokeUser(a, uid).1
    ensures HasUser(a, uid)
  {
    hide HasUser, HasNamedEntries, WithoutUser, RecalculateMask;
  }

  /** Whatever a call writes to a list is within its mask. */
  lemma AccessIsTight(t: Tree, x: Attrs, action: Action, uid: u32, part: seq<Change>)
    requires Sound(x) && part <= NodePlan(t, x, action, uid).writes
    ensures var y := DoAll(x, uid, part); y.access == x.access || TightList(y.access)
  {
    StartIsValid(t, x);
    RequiredIsWithin(t);
    AccessOfPart(t, x, action, uid, part);
    hide *;
    if DoAll(x, uid, part).access != x.access {
      if action == Grant {
        GrantedIsTight(Start(t, x).value, uid, Required(t));
      } else {
        RevokedWrittenTight(Start(t, x).value, uid);
      }
    }
  }

  lemma DefaultIsTight(t: Tree, x: Attrs, action: Action, uid: u32, part: seq<Change>)
    requires Sound(x) && part <= NodePlan(t, x, action, uid).writes
    ensures var y := DoAll(x, uid, part); y.default_ == x.default_ || TightList(y.default_)
  {
    SmallIsWithinSeven(7);
    StartIsValid(t, x);
    RequiredIsWithin(t);
    HomeStatus.SoundDefault(x);
    assert TightList(None);
    hide GrantUser, RevokeUser, Encode, Parse, BaseACL, Base, Required, HasNamedEntries, DoAll, Sound, Valid, HasUser, GrantNode, RevokeNode, TightList, Tight;
    var y := DoAll(x, uid, part);
    if y.default_ != x.default_ {
      if action == Grant {
        GrantDefaultPart(t, x, uid, part);
        var g := GrantUser(Start(t, x).value, uid, Required(t));
        GrantIsValid(Start(t, x).value, uid, Required(t));
        BaseIsValid(g);
        GrantedIsTight(Read(x.default_, Base(g)).value, uid, 7);
      } else {
        RevokeDefaultPart(t, x, uid, part);
        if y.default_ != None {
          RevokedWrittenTight(Parse(x.default_.value).value, uid);
        }
      }
    }
  }

  // The user's own calls.

  lemma GrantResultIsTight(t: Tree, x: Attrs, uid: u32)
    requires Sound(x) && t.kind.Directory? && GrantNode(t, x, uid).ok
    ensures TightList(GrantResult(t, x, uid).access) && TightList(GrantResult(t, x, uid).default_)
  {
    DefaultStart(t, x, uid);
    RequiredIsWithin(t);
    SmallIsWithinSeven(7);
    hide GrantUser, Encode, Parse, BaseACL, Base, Required, Valid, Within, TightList, Tight, Read, Start;
    var a := Start(t, x).value;
    GrantedIsTight(a, uid, Required(t));
    GrantedIsTight(Read(x.default_, Base(GrantUser(a, uid, Required(t)))).value, uid, 7);
  }

  /** An attempt of the user's own, as far as it got: if the home is marked afterwards, the lists are tight. */
  lemma OwnStaysReady(s: Store, home: Tree, uid: u32, a: Attempt)
    requires Simple(home) && SoundStore(s) && Ready(s, home, uid) && Cleared(s, home, uid, a)
    ensures Ready(After(s, home, uid, a), home, uid)
  {
    var p, x := ManagePlan(s, home, a.action, uid, a.clears), At(s, home.id);
    assert Sound(x) && home in Covered(home, home.device);
    if !home.kind.Directory? {
      NothingHappens(s, home, uid, a);
    } else if a.action == Grant && p.ok && a.cut >= |p.writes| {
      AfterGrant(s, home, uid, a.clears, home);
      hide ManagePlan, Simple, Covered, Sound, SoundStore, GrantNode, GrantResult, TightList;
      GrantResultIsTight(home, x, uid);
      MarkedLists(true, Grant, uid, GrantResult(home, x, uid));
    } else {
      UnmarkedOrBefore(s, home, uid, a);
      hide ManagePlan, Simple, Covered, Sound, SoundStore, NodePlan, TightList, After, DoAll;
      var part := PartOfOwn(s, home, uid, a, home);
      AccessIsTight(home, x, a.action, uid, part);
      DefaultIsTight(home, x, a.action, uid, part);
    }
  }

  /** Short of the last write of a grant, a call marks nothing. */
  lemma UnmarkedOrBefore(s: Store, home: Tree, uid: u32, a: Attempt)
    requires Simple(home) && home.kind.Directory? && Cleared(s, home, uid, a)
    requires var p := ManagePlan(s, home, a.action, uid, a.clears); a.action == Grant ==> !p.ok || a.cut < |p.writes|
    ensures uid in At(After(s, home, uid, a), home.id).complete ==> uid in At(s, home.id).complete
  {
    if a.action == Grant {
      GrantCutUnmarks(s, home, uid, a);
    } else {
      var ws := ManagePlan(s, home, Revoke, uid, a.clears).writes;
      var changes := Of(Cut(ws, a.cut), home.id);
      AtCut(s, uid, ws, a.cut, home.id);
      RevokeNeverMarks(s, home, uid, a.clears);
      assert MarkComplete !in changes;
      hide ManagePlan, Of, PerformAll, DoAll, Cut;
      if uid !in At(s, home.id).complete {
        StaysUnmarked(At(s, home.id), uid, changes);
      }
    }
  }

  lemma RevokeNeverMarks(s: Store, home: Tree, uid: u32, clears: bool)
    requires Simple(home) && home.kind.Directory?
    ensures MarkComplete !in Of(ManagePlan(s, home, Revoke, uid, clears).writes, home.id)
  {
    assert home in Covered(home, home.device);
    WalkOf(s, home, home.device, Revoke, uid, home);
    ManageOf(s, home, Revoke, uid, clears, home.id);
    NodeNeverMarks(home, At(s, home.id), Revoke, uid);
    hide NodePlan, WalkPlan, Of, ManagePlan;
  }

  /** A call for some user of the home. */
  datatype Call = Call(uid: u32, trial: Trial)

  function AfterCalls(s: Store, home: Tree, calls: seq<Call>): Store
    decreases |calls|
  {
    if calls == [] then s else AfterCalls(AfterTrial(s, home, calls[0].uid, calls[0].trial), home, calls[1..])
  }

  /** Every grant for the user removed the user's old marker, or found none. */
  predicate ClearedFor(s: Store, home: Tree, uid: u32, calls: seq<Call>)
    decreases |calls|
  {
    calls == [] ||
    ((calls[0].uid == uid ==> calls[0].trial.Clears() || uid !in At(s, home.id).complete)
     && ClearedFor(AfterTrial(s, home, calls[0].uid, calls[0].trial), home, uid, calls[1..]))
  }

  lemma OwnStaysHonest(s: Store, home: Tree, uid: u32, trial: Trial)
    requires Simple(home) && SoundStore(s) && Honest(s, home, uid) && Ready(s, home, uid)
    requires trial.Clears() || uid !in At(s, home.id).complete
    ensures var r := AfterTrial(s, home, uid, trial); Honest(r, home, uid) && Ready(r, home, uid)
  {
    var a := TrialIsAttempt(s, home, uid, trial);
    assert Cleared(s, home, uid, a);
    hide After, AfterTrial, Honest, Simple, SoundStore, Trial.Clears, TightList;
    StaysHonest(s, home, uid, a);
    OwnStaysReady(s, home, uid, a);
    CreatedDoesNotMatter(After(s, home, uid, a), AfterTrial(s, home, uid, trial), home, uid);
  }

  lemma CallStaysSound(s: Store, home: Tree, uid: u32, trial: Trial)
    requires Simple(home) && SoundStore(s)
    ensures SoundStore(AfterTrial(s, home, uid, trial))
  {
    var a := TrialIsAttempt(s, home, uid, trial);
    hide After, AfterTrial, Honest, Simple, SoundStore;
    StaysSound(s, home, uid, a);
    CreatedDoesNotMatter(After(s, home, uid, a), AfterTrial(s, home, uid, trial), home, uid);
  }

  lemma {:induction false} CallsStayHonest(s: Store, home: Tree, uid: u32, calls: seq<Call>)
    requires Simple(home) && SoundStore(s) && Honest(s, home, uid) && Ready(s, home, uid) && ClearedFor(s, home, uid, calls)
    ensures Honest(AfterCalls(s, home, calls), home, uid) && SoundStore(AfterCalls(s, home, calls))
    decreases |calls|
  {
    hide Honest, Ready, AfterTrial, SoundStore, Simple, Trial.Clears;
    if calls != [] {
      var Call(other, trial) := calls[0];
      CallStaysSound(s, home, other, trial);
      if other == uid {
        OwnStaysHonest(s, home, uid, trial);
      } else {
        OtherStaysHonest(s, home, other, trial, uid);
      }
      CallsStayHonest(AfterTrial(s, home, other, trial), home, uid, calls[1..]);
    }
  }

  /** Crash consistency with several users: after any calls for any users, with any writes refused and stopped
      anywhere, a user whose status is "enabled" has the required access to every file and directory of the
      boundary. */
  lemma EnabledAmongUsers(s: Store, home: Tree, uid: u32, calls: seq<Call>, x: Tree, f: File, c: Credential)
    requires Simple(home) && SoundStore(s) && uid !in At(s, home.id).complete && ClearedFor(s, home, uid, calls)
    requires StatusOf(At(AfterCalls(s, home, calls), home.id), uid) == Enabled
    requires x in Covered(home, home.device)
    ensures var y := At(AfterCalls(s, home, calls), x.id);
            && Granted(x, y, uid)
            && (c.uid == uid && uid != f.owner ==> Permits(x, y, f, c, Given(x)))
  {
    assert Honest(s, home, uid) by { hide ListHas, AllGranted; }
    CallsStayHonest(s, home, uid, calls);
    var y := At(AfterCalls(s, home, calls), x.id);
    hide Simple, AfterCalls, ClearedFor, Covered, ListHas, Allows, StatusOf, Sound, Parse;
    assert Granted(x, y, uid);
    assert Sound(y);
    if c.uid == uid && uid != f.owner {
      GrantedIsAllowed(x, y, uid, f, c);
    }
  }
}

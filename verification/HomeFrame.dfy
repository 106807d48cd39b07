/**
 Nobody else notices: what a call for one user leaves to everybody else, at every file and directory, by
 its list or by its mode bits, whatever is refused and wherever the call is stopped.
 */
module HomeFrame {
  import opened Wrappers
  import opened Acl
  import opened AclAccess
  import opened AclEdits
  import opened AclMode
  import opened AclCodec
  import opened AclOrder
  import opened HomeTree
  import opened HomeWalk
  import opened HomeNode
  import opened HomeCrash
  import opened HomeRestore
  import opened HomeOutcomes

  /** What a file permits: what its list says, or without a list what its mode bits say. */
  predicate Permits(t: Tree, x: Attrs, f: File, c: Credential, want: u16) {
    match x.access
    case None => Within(want, ModeClass(t.mode, f, c))
    case Some(data) => Parse(data).Success? && Allows(Parse(data).value, f, c, want)
  }

  lemma StartPermits(t: Tree, x: Attrs, f: File, c: Credential, want: u16)
    requires Start(t, x).Success?
    ensures Permits(t, x, f, c, want) <==> Allows(Start(t, x).value, f, c, want)
  {
    ModeDecides(t.mode, f, c, want);
    hide Allows, Within, Parse, BaseACL, ModeClass;
  }

  /** Writing a valid list and reading it back changes no decision. */
  lemma WrittenPermits(t: Tree, a: Entries, x: Attrs, f: File, c: Credential, want: u16)
    requires Valid(a) && x.access == Some(Encode(a))
    ensures Permits(t, x, f, c, want) <==> Allows(a, f, c, want)
  {
    hide Allows, Within, Parse, Encode, Valid, Rights, Sorted, Tight, HasUser;
    ReadBack(a);
    AllowsByRights(a, f, c, want);
    AllowsByRights(Sorted(a), f, c, want);
  }

  // One node.

  /** What a grant gives, spelled out: everything on directories and on files that anybody may execute, else
      reading and writing. */
  function Given(t: Tree): u16 {
    if t.kind.Directory? || (t.mode / 64) % 2 == 1 || (t.mode / 8) % 2 == 1 || t.mode % 2 == 1 then 4 + 2 + 1 else 4 + 2
  }

  /** A completed grant of one node gives the user what it should, and leaves every other process what the
      node's list, or without one its mode bits, gave it before. */
  lemma GrantPermits(t: Tree, x: Attrs, uid: u32, f: File, c: Credential, want: u16)
    requires Sound(x) && GrantNode(t, x, uid).ok
    ensures var z := DoAll(x, uid, GrantNode(t, x, uid).writes);
            Permits(t, z, f, c, want) <==>
            if c.uid == uid && uid != f.owner then Within(want, Given(t)) else Permits(t, x, f, c, want)
  {
    StartIsValid(t, x);
    RequiredIsWithin(t);
    GrantDoes(t, x, uid);
    var z := DoAll(x, uid, GrantNode(t, x, uid).writes);
    var a := Start(t, x).value;
    hide GrantUser, Encode, Parse, BaseACL, Base, Valid, Within, Permits, DoAll, Tight, Allows;
    assert z.access == Some(Encode(GrantUser(a, uid, Required(t))));
    GrantFrame(a, uid, Required(t), f, c, want);
    WrittenPermits(t, GrantUser(a, uid, Required(t)), z, f, c, want);
    StartPermits(t, x, f, c, want);
  }

  /** A default list that a grant makes passes on to new files what the directory itself gives to its owner,
      its group and others, and everything to the user. */
  lemma NewDefaultPermits(t: Tree, x: Attrs, uid: u32, f: File, c: Credential, want: u16)
    requires Sound(x) && t.kind.Directory? && x.default_.None? && GrantNode(t, x, uid).ok
    ensures var z := DoAll(x, uid, GrantNode(t, x, uid).writes);
            && z.default_.Some? && Parse(z.default_.value).Success? && z.access.Some? && Parse(z.access.value).Success?
            && uid in z.created
            && (Allows(Parse(z.default_.value).value, f, c, want) <==>
                if c.uid == uid && uid != f.owner then Within(want, 7)
                else exists e | e in Parse(z.access.value).value :: e.tag == ClassTag(f, c) && Within(want, e.perm))
  {
    StartIsValid(t, x);
    RequiredIsWithin(t);
    SmallIsWithinSeven(7);
    GrantDoes(t, x, uid);
    var z := DoAll(x, uid, GrantNode(t, x, uid).writes);
    var g := GrantUser(Start(t, x).value, uid, Required(t));
    var d := GrantUser(Base(g), uid, 7);
    GrantIsValid(Start(t, x).value, uid, Required(t));
    BaseIsValid(g);
    SortedInOrder(g);
    hide GrantUser, Encode, Parse, BaseACL, Base, Valid, Within, Permits, DoAll, Tight, Allows, HasUser, Rights, Sorted, HasNamedEntries;
    assert z.access == Some(Encode(g)) && z.default_ == Some(Encode(d));
    ReadBack(g);
    GrantFrame(Base(g), uid, 7, f, c, want);
    ReadBack(d);
    AllowsByRights(d, f, c, want);
    AllowsByRights(Sorted(d), f, c, want);
    BaseDecides(g, f, c, want);
  }

  // Revocations never take from others.

  /** Rights that are at least as wide for everybody but one user allow everybody else at least as much. */
  lemma WiderAllows(before: map<Key, u16>, after: map<Key, u16>, uid: u32, f: File, c: Credential, want: u16)
    requires forall k | k != (USER, uid) :: (k in before <==> k in after) && (k in before ==> Within(before[k], after[k]))
    requires c.uid != uid || c.uid == f.owner
    ensures AllowsBy(before, f, c, want) ==> AllowsBy(after, f, c, want)
  {
    hide Within, GroupOf;
    SameSpeakers(before, after, uid, f, c);
    hide SpeaksFor;
    if k :| k in before && SpeaksFor(k, before, f, c) && Within(want, before[k]) {
      WithinTransitive(want, before[k], after[k]);
      assert k in after && SpeaksFor(k, after, f, c);
    }
  }

  lemma RawIsWider(a: Entries, k: Key)
    requires Distinct(a)
    ensures k in Rights(a) <==> k in RawRights(a)
    ensures k in Rights(a) ==> Within(Rights(a)[k], RawRights(a)[k])
  {
    hide Within, Meet, Rights, RawRights;
    if k in Rights(a) {
      var e := RightsFrom(a, k);
      SameRaw(a, e);
      MeetIsLower(e.perm, EffectiveMask(a));
      SelfWithin(e.perm);
    }
    if k in RawRights(a) {
      var e := RawFrom(a, k);
      RightsOf(a, e);
    }
  }

  /** A revocation takes nothing from anybody else. */
  lemma RevokeTakesNothing(a: Entries, uid: u32, f: File, c: Credential, want: u16)
    requires Valid(a) && HasUser(a, uid) && (c.uid != uid || c.uid == f.owner)
    ensures Valid(RevokeUser(a, uid).0)
    ensures Allows(a, f, c, want) ==> Allows(RevokeUser(a, uid).0, f, c, want)
  {
    hide *;
    var r := RevokeUser(a, uid).0;
    RevokeRights(a, uid);
    ValidIsDistinct(a);
    ValidIsDistinct(r);
    forall k | k != (USER, uid)
      ensures (k in Rights(a) <==> k in Rights(r)) && (k in Rights(a) ==> Within(Rights(a)[k], Rights(r)[k]))
    {
      RawIsWider(a, k);
    }
    WiderAllows(Rights(a), Rights(r), uid, f, c, want);
    AllowsByRights(a, f, c, want);
    AllowsByRights(r, f, c, want);
  }

  // Calls cut off anywhere.

  /** The list that a call for one user writes to a node, if it writes one. */
  lemma AccessOfPart(t: Tree, x: Attrs, action: Action, uid: u32, part: seq<Change>)
    requires part <= NodePlan(t, x, action, uid).writes
    ensures var y := DoAll(x, uid, part);
            || y.access == x.access
            || (Start(t, x).Success? && y.access == Some(Encode(
                 if action == Grant then GrantUser(Start(t, x).value, uid, Required(t)) else RevokeUser(Start(t, x).value, uid).0))
                && (action == Revoke ==> RevokeUser(Start(t, x).value, uid).1))
  {
    hide GrantUser, RevokeUser, Encode, Parse, BaseACL, Base, Required, HasNamedEntries, DoAll;
    if part == [] {
      DoNone(x, uid);
    } else if action == Grant {
      GrantWritesOnce(t, x, uid);
      assert part == [part[0]] + part[1..];
      DoFirst(x, uid, part[0], part[1..]);
      KeepsAccess(Do(x, uid, part[0]), uid, part[1..]);
    } else {
      var d := if t.kind.Directory? then RevokeDefault(x, uid).writes else [];
      RevokeDefaultWrites(x, uid);
      if |part| <= |d| {
        assert part == d[..|part|];
        KeepsAccess(x, uid, part);
      } else {
        var last := part[|part| - 1];
        assert part == d + [last];
        KeepsAccess(x, uid, d);
        DoAppend(x, uid, d, last);
      }
    }
  }

  lemma DoNone(x: Attrs, uid: u32)
    ensures DoAll(x, uid, []) == x
  {
  }

  lemma GrantWritesOnce(t: Tree, x: Attrs, uid: u32)
    ensures var ws := GrantNode(t, x, uid).writes;
            ws != [] ==> Start(t, x).Success? && ws[0] == SetAccess(Encode(GrantUser(Start(t, x).value, uid, Required(t))))
                         && forall c | c in ws[1..] :: !c.SetAccess?
  {
    hide GrantUser, Encode, Parse, BaseACL, Base, Required;
  }

  lemma RevokeDefaultWrites(x: Attrs, uid: u32)
    ensures forall c | c in RevokeDefault(x, uid).writes :: !c.SetAccess?
  {
    hide RevokeUser, Encode, Parse, HasNamedEntries;
  }

  lemma PartPermits(t: Tree, x: Attrs, action: Action, uid: u32, part: seq<Change>, f: File, c: Credential, want: u16)
    requires Sound(x) && part <= NodePlan(t, x, action, uid).writes && (c.uid != uid || c.uid == f.owner)
    ensures var y := DoAll(x, uid, part);
            && (Permits(t, x, f, c, want) ==> Permits(t, y, f, c, want))
            && (action == Grant ==> (Permits(t, y, f, c, want) <==> Permits(t, x, f, c, want)))
  {
    AccessOfPart(t, x, action, uid, part);
    StartIsValid(t, x);
    RequiredIsWithin(t);
    var y := DoAll(x, uid, part);
    if y.access == x.access {
      SameAccessPermits(t, x, y, f, c, want);
    } else {
      hide GrantUser, RevokeUser, Encode, Parse, BaseACL, Valid, Within, Permits, DoAll, Tight, Allows, Required, HasUser, NodePlan, Sound;
      var a := Start(t, x).value;
      StartPermits(t, x, f, c, want);
      if action == Grant {
        GrantFrame(a, uid, Required(t), f, c, want);
        WrittenPermits(t, GrantUser(a, uid, Required(t)), y, f, c, want);
      } else {
        RemovedMeansHad(x, t, uid);
        RevokeTakesNothing(a, uid, f, c, want);
        WrittenPermits(t, RevokeUser(a, uid).0, y, f, c, want);
      }
    }
  }

  lemma SameAccessPermits(t: Tree, x: Attrs, y: Attrs, f: File, c: Credential, want: u16)
    requires x.access == y.access
    ensures Permits(t, x, f, c, want) <==> Permits(t, y, f, c, want)
  {
    hide Allows, Within, Parse;
  }

  /** Frame: a call for one user, with any writes refused and stopped anywhere, takes nothing from any other
      process, nor from the owner of a file, and a grant gives them nothing either. */
  lemma NobodyElseLoses(s: Store, home: Tree, uid: u32, trial: Trial, x: Tree, f: File, c: Credential, want: u16)
    requires Simple(home) && SoundStore(s) && x in Covered(home, home.device) && (c.uid != uid || c.uid == f.owner)
    ensures var (before, after) := (At(s, x.id), At(AfterTrial(s, home, uid, trial), x.id));
            && (Permits(x, before, f, c, want) ==> Permits(x, after, f, c, want))
            && (trial.action == Grant ==> (Permits(x, after, f, c, want) <==> Permits(x, before, f, c, want)))
  {
    var a := TrialIsAttempt(s, home, uid, trial);
    var before, then_, after := At(s, x.id), At(After(s, home, uid, a), x.id), At(AfterTrial(s, home, uid, trial), x.id);
    assert Sound(before) && then_.access == after.access;
    hide AfterTrial, Simple, Covered, NodePlan, Sound, Permits, SoundStore, UpToCreated, DoAll, Trial.Clears;
    SameAccessPermits(x, then_, after, f, c, want);
    if home.kind.Directory? {
      hide After;
      var part := PartOfOwn(s, home, uid, a, x);
      PartPermits(x, before, a.action, uid, part, f, c, want);
      SameAccessPermits(x, DoAll(before, uid, part), then_, f, c, want);
    } else {
      NothingHappens(s, home, uid, a);
    }
  }

  lemma NothingHappens(s: Store, home: Tree, uid: u32, a: Attempt)
    requires !home.kind.Directory?
    ensures After(s, home, uid, a) == s
  {
  }

  /** A completed grant of a home, at every file and directory of its boundary and for every process: the user
      may do what it should, and everybody else what they could. */
  lemma CompletedGrantPermits(s: Store, home: Tree, uid: u32, clears: bool, x: Tree, f: File, c: Credential, want: u16)
    requires Simple(home) && SoundStore(s) && ManagePlan(s, home, Grant, uid, clears).ok && x in Covered(home, home.device)
    ensures Permits(x, At(Completed(s, home, Grant, uid, clears), x.id), f, c, want) <==>
            if c.uid == uid && uid != f.owner then Within(want, Given(x)) else Permits(x, At(s, x.id), f, c, want)
  {
    var before, after := At(s, x.id), At(Completed(s, home, Grant, uid, clears), x.id);
    assert Sound(before);
    AfterGrant(s, home, uid, clears, x);
    hide Simple, Covered, ManagePlan, Completed, SoundStore, Permits, Given, GrantNode, DoAll, GrantResult, Within;
    GrantDoes(x, before, uid);
    GrantPermits(x, before, uid, f, c, want);
    MarkedLists(x.id == home.id, Grant, uid, GrantResult(x, before, uid));
    SameAccessPermits(x, GrantResult(x, before, uid), after, f, c, want);
  }
}

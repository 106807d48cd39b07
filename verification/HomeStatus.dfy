/**
 What a call reports is what the status then says: "enabled" after a completed grant, "disabled" after a
 completed revocation.
 */
module HomeStatus {
  import opened Wrappers
  import opened Acl
  import opened AclAccess
  import opened AclEdits
  import opened AclCodec
  import opened HomeTree
  import opened HomeWalk
  import opened HomeNode
  import opened HomeCrash
  import opened HomeRestore
  import opened HomeMarker

  /** The list can be read, has an entry of the user, and allows the user everything at a file that the user
      does not own. */
  predicate AllowsAll(data: Option<Bytes>, uid: u32) {
    && data.Some? && Parse(data.value).Success?
    && (exists e | e in Parse(data.value).value :: e.tag == 2 && e.id == uid)
    && Allows(Parse(data.value).value, NotOwned(uid), Credential(uid, {}), 4 + 2 + 1)
  }

  /** What the four answers mean, by the access check. */
  lemma StatusMeans(x: Attrs, uid: u32)
    requires Sound(x)
    ensures StatusOf(x, uid) ==
            if (x.access.Some? && Parse(x.access.value).Failure?) || (x.default_.Some? && Parse(x.default_.value).Failure?) then Broken
            else if AllowsAll(x.access, uid) && AllowsAll(x.default_, uid) && uid in x.complete then Enabled
            else if AllowsAll(x.access, uid) || AllowsAll(x.default_, uid) then Partial
            else Disabled
  {
    hide Parse, AllowsAll, ListHas, Sound, SoundList;
    HasAll(x.access, x, uid);
    HasAll(x.default_, x, uid);
  }

  lemma HasAll(data: Option<Bytes>, x: Attrs, uid: u32)
    requires Sound(x) && (data == x.access || data == x.default_)
    ensures ListHas(data, uid, 7) <==> AllowsAll(data, uid)
  {
    hide Parse, Valid, Allows, UserHas;
    if data.Some? && Parse(data.value).Success? {
      HasMeans(Parse(data.value).value, uid, 7);
    }
  }

  /** A readable list, or none, that has no entry of the user. */
  predicate Free(data: Option<Bytes>, uid: u32) {
    data.Some? ==> Parse(data.value).Success? && !HasUser(Parse(data.value).value, uid)
  }

  lemma FreeIsDisabled(x: Attrs, uid: u32)
    requires Free(x.access, uid) && Free(x.default_, uid)
    ensures StatusOf(x, uid) == Disabled
  {
    hide Parse, HasUser, Within, Meet;
    if x.access.Some? {
      FirstUser(Parse(x.access.value).value, uid);
    }
    if x.default_.Some? {
      FirstUser(Parse(x.default_.value).value, uid);
    }
  }

  /** What a revocation writes can be read, and names the user no more. */
  lemma RevokedIsFree(a: Entries, uid: u32)
    requires Valid(a)
    ensures var (rest, removed) := RevokeUser(a, uid);
            if removed then Free(Some(Encode(rest)), uid) else rest == a && !HasUser(a, uid)
  {
    hide Valid, Parse, Encode, Tight, Sorted, Rights, RawRights;
    if HasUser(a, uid) {
      RevokeRights(a, uid);
      hide RevokeUser, HasUser;
      ReadBack(RevokeUser(a, uid).0);
    } else {
      RevokeNobody(a, uid);
    }
  }

  lemma AccessIsFree(t: Tree, x: Attrs, uid: u32)
    requires Sound(x) && RevokeAccess(t, x, uid).ok
    ensures (RevokeAccess(t, x, uid).writes == [] && Free(x.access, uid))
         || exists b: Bytes :: RevokeAccess(t, x, uid).writes == [SetAccess(b)] && Free(Some(b), uid)
  {
    StartIsValid(t, x);
    ModeIsValid(t.mode);
    var a := Start(t, x).value;
    RevokedIsFree(a, uid);
    hide Valid, Parse, Encode, RevokeUser, HasUser, BaseACL, Free;
    if RevokeUser(a, uid).1 {
      var b := Encode(RevokeUser(a, uid).0);
      assert RevokeAccess(t, x, uid).writes == [SetAccess(b)];
    } else {
      UnnamedIsFree(x.access, a, uid);
    }
  }

  lemma DefaultIsFree(x: Attrs, uid: u32)
    requires Sound(x) && RevokeDefault(x, uid).ok
    ensures var z := DoAll(x, uid, RevokeDefault(x, uid).writes); Free(z.default_, uid)
  {
    hide Valid, Parse, Encode, RevokeUser, HasUser, HasNamedEntries, DoAll, Free, Sound, SoundList;
    SoundDefault(x);
    FreeOfNothing(uid);
    DoOne(x, uid, DropCreated);
    DoNothing(x, uid);
    if x.default_.Some? {
      var a := Parse(x.default_.value).value;
      var b := Encode(RevokeUser(a, uid).0);
      RevokedIsFree(a, uid);
      UnnamedIsFree(x.default_, a, uid);
      DoOne(x, uid, SetDefault(b));
      DropsDefault(x, uid);
    }
  }

  lemma SoundDefault(x: Attrs)
    requires Sound(x)
    ensures x.default_.Some? && Parse(x.default_.value).Success? ==> Valid(Parse(x.default_.value).value)
  {
    hide Valid, Parse;
  }

  lemma DropsDefault(x: Attrs, uid: u32)
    ensures DoAll(x, uid, [DropDefault, DropCreated]).default_ == None
  {
    assert [DropDefault, DropCreated] == [DropDefault] + [DropCreated];
    DoFirst(x, uid, DropDefault, [DropCreated]);
    DoOne(x.(default_ := None), uid, DropCreated);
  }

  lemma FreeOfNothing(uid: u32)
    ensures Free(None, uid)
  {
  }

  lemma UnnamedIsFree(data: Option<Bytes>, a: Entries, uid: u32)
    requires data.Some? ==> Parse(data.value) == Success(a)
    ensures !HasUser(a, uid) ==> Free(data, uid)
  {
    hide Parse, HasUser;
  }

  lemma RevokeNodeWrites(t: Tree, x: Attrs, uid: u32)
    requires t.kind.Directory? && RevokeNode(t, x, uid).ok
    ensures RevokeDefault(x, uid).ok && RevokeAccess(t, x, uid).ok
    ensures RevokeNode(t, x, uid).writes == RevokeDefault(x, uid).writes + RevokeAccess(t, x, uid).writes
  {
    hide RevokeDefault, RevokeAccess;
  }

  /** A directory after a completed revocation. */
  lemma RevokedIsDisabled(t: Tree, x: Attrs, uid: u32)
    requires t.kind.Directory? && Sound(x) && RevokeNode(t, x, uid).ok
    ensures StatusOf(DoAll(x, uid, RevokeNode(t, x, uid).writes), uid) == Disabled
  {
    hide RevokeDefault, RevokeAccess, RevokeNode, Free, StatusOf, Sound, DoAll;
    RevokeNodeWrites(t, x, uid);
    var y := DoAll(x, uid, RevokeDefault(x, uid).writes);
    DefaultIsFree(x, uid);
    AccessIsFree(t, x, uid);
    RevokeDefaultKeepsAccess(x, uid);
    var ws := RevokeAccess(t, x, uid).writes;
    DoBoth(x, uid, RevokeDefault(x, uid).writes, ws);
    if ws == [] && Free(x.access, uid) {
      FreeIsDisabled(y, uid);
      DoNothing(y, uid);
    } else {
      var b: Bytes :| ws == [SetAccess(b)] && Free(Some(b), uid);
      DoOne(y, uid, SetAccess(b));
      FreeIsDisabled(y.(access := Some(b)), uid);
    }
  }

  lemma DoNothing(x: Attrs, uid: u32)
    ensures DoAll(x, uid, []) == x
  {
  }

  lemma {:induction false} DoBoth(x: Attrs, uid: u32, a: seq<Change>, b: seq<Change>)
    ensures DoAll(x, uid, a + b) == DoAll(DoAll(x, uid, a), uid, b)
    decreases |a|
  {
    hide Do;
    if a == [] {
      assert [] + b == b;
    } else {
      assert (a + b)[1..] == a[1..] + b;
      DoBoth(Do(x, uid, a[0]), uid, a[1..], b);
    }
  }

  lemma MarkerOnly(x: Attrs, isHome: bool, action: Action, uid: u32)
    requires action == Revoke
    ensures StatusOf(x, uid) == Disabled ==> StatusOf(Marked(isHome, action, uid, x), uid) == Disabled
  {
    hide ListHas;
  }

  /** After a completed grant the status is "enabled", after a completed revocation "disabled", whatever
      the lists were before. */
  lemma StatusAfterCall(s: Store, home: Tree, action: Action, uid: u32, clears: bool)
    requires Simple(home) && SoundStore(s) && ManagePlan(s, home, action, uid, clears).ok
    ensures StatusOf(At(Completed(s, home, action, uid, clears), home.id), uid) == if action == Grant then Enabled else Disabled
  {
    var x := At(s, home.id);
    assert Sound(x) && home.kind.Directory?;
    CallSucceeds(s, home, action, uid, clears);
    assert home in Covered(home, home.device);
    CompletedIsExact(s, home, action, uid, clears, home.id);
    hide ManagePlan, PerformAll, Covered, Simple, StatusOf, Sound, DoAll, Marked, GrantNode, RevokeNode;
    if action == Grant {
      GrantGives(home, x, uid);
      var z := DoAll(x, uid, GrantNode(home, x, uid).writes);
      MarkedLists(true, Grant, uid, z);
      SameListsSameGrant(home, Marked(true, Grant, uid, z), z, uid);
      MarkedIsComplete(uid, z);
      hide Granted;
      StatusFrom(home, Marked(true, Grant, uid, z), uid);
    } else {
      RevokedIsDisabled(home, x, uid);
      MarkerOnly(DoAll(x, uid, RevokeNode(home, x, uid).writes), true, Revoke, uid);
    }
  }

  lemma MarkedIsComplete(uid: u32, y: Attrs)
    ensures uid in Marked(true, Grant, uid, y).complete
  {
  }

  /** A home without any lists can always be granted, and is then enabled; all assumptions of the
      theorems about grants and revocations hold of it. */
  lemma FreshHome(home: Tree, uid: u32)
    requires Simple(home) && home.kind.Directory?
    ensures SoundStore(map[]) && UntouchedHome(map[], home, uid) && Honest(map[], home, uid)
    ensures ManagePlan(map[], home, Grant, uid, true).ok
    ensures StatusOf(At(Completed(map[], home, Grant, uid, true), home.id), uid) == Enabled
  {
    var s: Store := map[];
    NothingThere(uid);
    CallSucceeds(s, home, Grant, uid, true);
    forall x | x in Covered(home, home.device)
      ensures Untouched(x, At(s, x.id), uid) && NodePlan(x, At(s, x.id), Grant, uid).ok
    {
      NothingToNode(x, uid);
    }
    hide Simple, Covered, ManagePlan, Untouched, Sound, NodePlan;
    assert SoundStore(s);
    StatusAfterCall(s, home, Grant, uid, true);
    hide StatusOf;
  }

  lemma NothingThere(uid: u32)
    ensures forall id :: At(map[], id) == NOTHING
    ensures Sound(NOTHING) && StatusOf(NOTHING, uid) == Disabled && uid !in NOTHING.complete
  {
  }

  lemma NothingToNode(t: Tree, uid: u32)
    ensures Untouched(t, NOTHING, uid) && NodePlan(t, NOTHING, Grant, uid).ok
  {
    ModeIsValid(t.mode);
    hide GrantUser, Encode, Parse, BaseACL, Base, Required, HasUser, Valid;
  }
}

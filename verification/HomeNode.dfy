/**
 One file or directory: what a grant and a revocation leave in its extended attributes, judged by the
 access check.
 */
module HomeNode {
  import opened Wrappers
  import opened Acl
  import opened AclAccess
  import opened AclEdits
  import opened AclCodec
  import opened AclOrder
  import opened HomeTree

  /** A stored list is valid if it can be read at all; the kernel stores no other. */
  predicate SoundList(data: Option<Bytes>) {
    data.Some? && Parse(data.value).Success? ==> Valid(Parse(data.value).value)
  }

  predicate Sound(x: Attrs) {
    SoundList(x.access) && SoundList(x.default_)
  }

  /** The user's entry gives the required access, and a directory's default list passes everything on. */
  predicate Granted(t: Tree, x: Attrs, uid: u32) {
    ListHas(x.access, uid, Required(t)) && (t.kind.Directory? ==> ListHas(x.default_, uid, 7))
  }

  /** What the user's processes may do is what `userHas` reads off the list, unless the user owns the file. */
  lemma UserHasIsAllowed(a: Entries, f: File, c: Credential, want: u16)
    requires Valid(a) && HasUser(a, c.uid) && c.uid != f.owner
    ensures UserHas(a, c.uid, want) <==> Allows(a, f, c, want)
  {
    hide Within, Meet;
    FirstUser(a, c.uid);
    var e :| e in a && IsUser(e, c.uid) && UserPerm(a, c.uid) == Some(e.perm);
    EffectiveAllows(a, e, want);
    MaskOf(a);
    WithinMeet(want, e.perm, EffectiveMask(a));
    AllowsByEntry(a, e, f, c, want);
  }

  lemma AllowsByEntry(a: Entries, e: Entry, f: File, c: Credential, want: u16)
    requires Valid(a) && e in a && IsUser(e, c.uid) && c.uid != f.owner
    ensures Allows(a, f, c, want) <==> Within(want, e.perm) && Within(want, EffectiveMask(a))
  {
    hide Within;
    assert Named(e.tag);
    forall x | x in a && IsUser(x, c.uid) ensures x == e { SameKeySameEntry(a, x, e); }
    MaskAllows(a, want);
  }

  lemma {:induction false} FirstUser(a: Entries, uid: u32)
    ensures HasUser(a, uid) <==> UserPerm(a, uid).Some?
    ensures UserPerm(a, uid).Some? ==> exists e | e in a :: IsUser(e, uid) && UserPerm(a, uid) == Some(e.perm)
  {
    if a != [] {
      assert a == [a[0]] + a[1..];
      FirstUser(a[1..], uid);
    }
  }

  /** A file that the user does not own, and a process of the user in no group. */
  function NotOwned(uid: u32): File {
    File(if uid == 0 then 1 else 0, 0)
  }

  /** `userHas` is the access check for a user that has an entry. */
  lemma HasMeans(a: Entries, uid: u32, wanted: u16)
    requires Valid(a)
    ensures UserHas(a, uid, wanted) <==> HasUser(a, uid) && Allows(a, NotOwned(uid), Credential(uid, {}), wanted)
  {
    hide Allows, Valid, Within, Meet, EffectiveMask, HasUser;
    FirstUser(a, uid);
    if HasUser(a, uid) {
      UserHasIsAllowed(a, NotOwned(uid), Credential(uid, {}), wanted);
    }
  }

  // What is read back after a grant.

  /** The list that is read back after a grant is written. */
  lemma ReadGranted(a: Entries, uid: u32, perm: u16)
    requires Valid(a) && Within(perm, 7)
    ensures var g := GrantUser(a, uid, perm);
            && Parse(Encode(g)) == Success(Sorted(g))
            && Valid(Sorted(g)) && Tight(Sorted(g)) && HasUser(Sorted(g), uid)
            && Rights(Sorted(g)) == Rights(a)[(USER, uid) := perm]
  {
    var g := GrantUser(a, uid, perm);
    GrantedHasUser(a, uid, perm);
    hide *;
    GrantRights(a, uid, perm);
    ReadBack(g);
    ValidIsDistinct(a);
  }

  /** A valid list is read back with the same entries. */
  lemma ReadBack(a: Entries)
    requires Valid(a)
    ensures Parse(Encode(a)) == Success(Sorted(a)) && Valid(Sorted(a)) && SameEntries(a, Sorted(a))
    ensures Rights(Sorted(a)) == Rights(a) && (Tight(a) <==> Tight(Sorted(a)))
    ensures forall uid :: HasUser(a, uid) <==> HasUser(Sorted(a), uid)
  {
    forall e | e in a ensures Within(e.perm, 7) { assert ValidEntry(e); }
    hide *;
    ValidIsDistinct(a);
    SortedSameEntries(a);
    SameEntriesSameAccess(a, Sorted(a));
    ParseEncode(a);
  }

  lemma GrantedHas(a: Entries, uid: u32, perm: u16)
    requires Valid(a) && Within(perm, 7)
    ensures ListHas(Some(Encode(GrantUser(a, uid, perm))), uid, perm)
  {
    hide *;
    var s := Sorted(GrantUser(a, uid, perm));
    ReadGranted(a, uid, perm);
    ValidIsDistinct(s);
    HasByRights(s, uid, perm);
    ListHasOf(Encode(GrantUser(a, uid, perm)), s, uid, perm);
  }

  lemma ListHasOf(b: Bytes, a: Entries, uid: u32, perm: u16)
    requires Parse(b) == Success(a)
    ensures ListHas(Some(b), uid, perm) <==> UserHas(a, uid, perm)
  {
    hide Parse, UserHas;
  }

  lemma HasByRights(a: Entries, uid: u32, perm: u16)
    requires Distinct(a) && HasUser(a, uid) && (USER, uid) in Rights(a) && Rights(a)[(USER, uid)] == perm
    ensures UserHas(a, uid, perm)
  {
    hide Within, Meet, Rights, EffectiveMask;
    FirstUser(a, uid);
    var e :| e in a && IsUser(e, uid) && UserPerm(a, uid) == Some(e.perm);
    RightsOf(a, e);
    SelfWithin(perm);
    RightsWithin(a, e, perm);
  }

  /** An entry whose effective right is `perm` gives `perm`. */
  lemma RightsWithin(a: Entries, e: Entry, perm: u16)
    requires e.tag == USER && Effective(e, EffectiveMask(a)) == perm && Within(perm, perm)
    ensures Within(perm, Meet(e.perm, EffectiveMask(a)))
  {
  }

  // The base list.

  lemma ModeIsValid(mode: u32)
    ensures Valid(BaseACL(mode)) && forall uid :: !HasUser(BaseACL(mode), uid)
    ensures !HasNamedEntries(BaseACL(mode))
  {
    var a := BaseACL(mode);
    SmallIsWithinSeven(a[0].perm);
    SmallIsWithinSeven(a[1].perm);
    SmallIsWithinSeven(a[2].perm);
    hide Within;
    assert a[0] in a && a[1] in a && a[2] in a;
  }

  /** Owner, owning group and others alone make a valid list without named entries. */
  lemma BaseIsValid(a: Entries)
    requires Valid(a)
    ensures Valid(Base(a)) && !HasNamedEntries(Base(a))
  {
    hide Within, ValidEntry;
    KeepDistinct(a, (e: Entry) => e.tag == USER_OBJ || e.tag == GROUP_OBJ || e.tag == OTHER);
    forall tag | tag in {USER_OBJ, GROUP_OBJ, OTHER} ensures HasTag(Base(a), tag) {
      var e :| e in a && e.tag == tag;
      assert e in Base(a);
    }
  }

  lemma RequiredIsWithin(t: Tree)
    ensures Within(Required(t), 7)
  {
    SmallIsWithinSeven(Required(t));
  }

  /** The list a node starts from. */
  function Start(t: Tree, x: Attrs): Result<Entries, ParseError> {
    Read(x.access, BaseACL(t.mode))
  }

  lemma StartIsValid(t: Tree, x: Attrs)
    requires Sound(x)
    ensures Start(t, x).Success? ==> Valid(Start(t, x).value)
  {
    hide Valid, Parse, BaseACL;
    ModeIsValid(t.mode);
  }

  // A completed grant.

  /** What a completed grant leaves at a node. */
  function GrantResult(t: Tree, x: Attrs, uid: u32): Attrs
    requires GrantNode(t, x, uid).ok
  {
    var g := GrantUser(Start(t, x).value, uid, Required(t));
    if !t.kind.Directory? then x.(access := Some(Encode(g)))
    else
      var d := GrantUser(Read(x.default_, Base(g)).value, uid, 7);
      x.(access := Some(Encode(g)), default_ := Some(Encode(d)), created := if x.default_.None? then x.created + {uid} else x.created)
  }

  lemma DoFirst(x: Attrs, uid: u32, c: Change, rest: seq<Change>)
    ensures DoAll(x, uid, [c] + rest) == DoAll(Do(x, uid, c), uid, rest)
  {
    assert ([c] + rest)[1..] == rest;
  }

  lemma DoOne(x: Attrs, uid: u32, c: Change)
    ensures DoAll(x, uid, [c]) == Do(x, uid, c)
  {
    DoFirst(x, uid, c, []);
    assert [c] + [] == [c];
  }

  lemma GrantDoes(t: Tree, x: Attrs, uid: u32)
    requires GrantNode(t, x, uid).ok
    ensures DoAll(x, uid, GrantNode(t, x, uid).writes) == GrantResult(t, x, uid)
  {
    hide GrantUser, Encode, Parse, BaseACL, Base, Required;
    var g := GrantUser(Start(t, x).value, uid, Required(t));
    var y := Do(x, uid, SetAccess(Encode(g)));
    if t.kind.Directory? {
      var d := Encode(GrantUser(Read(x.default_, Base(g)).value, uid, 7));
      DoFirst(x, uid, SetAccess(Encode(g)), if x.default_.None? then [MarkCreated, CreateDefault(d)] else [SetDefault(d)]);
      DoFirst(y, uid, MarkCreated, [CreateDefault(d)]);
      assert [MarkCreated, CreateDefault(d)] == [MarkCreated] + [CreateDefault(d)];
    }
  }

  lemma DefaultStart(t: Tree, x: Attrs, uid: u32)
    requires Sound(x) && GrantNode(t, x, uid).ok
    ensures Valid(Start(t, x).value)
    ensures t.kind.Directory? ==>
            var g := GrantUser(Start(t, x).value, uid, Required(t));
            Read(x.default_, Base(g)).Success? && Valid(Read(x.default_, Base(g)).value)
  {
    StartIsValid(t, x);
    RequiredIsWithin(t);
    hide GrantUser, Encode, Parse, BaseACL, Base, Required, Valid, Tight, Within;
    var g := GrantUser(Start(t, x).value, uid, Required(t));
    GrantIsValid(Start(t, x).value, uid, Required(t));
    BaseIsValid(g);
  }

  /** A completed grant gives the user what it should, on valid lists. */
  lemma GrantGives(t: Tree, x: Attrs, uid: u32)
    requires Sound(x) && GrantNode(t, x, uid).ok
    ensures Granted(t, DoAll(x, uid, GrantNode(t, x, uid).writes), uid)
  {
    DefaultStart(t, x, uid);
    GrantDoes(t, x, uid);
    RequiredIsWithin(t);
    SmallIsWithinSeven(7);
    hide GrantUser, Encode, Base, Required, Valid, Within, ListHas, DoAll, GrantNode, Start, Read;
    var g := GrantUser(Start(t, x).value, uid, Required(t));
    GrantedHas(Start(t, x).value, uid, Required(t));
    if t.kind.Directory? {
      GrantedHas(Read(x.default_, Base(g)).value, uid, 7);
    }
  }

  /** To the access check, a granted node gives the user everything required, unless the user owns the
      file and the owner's own entry decides. */
  lemma GrantedIsAllowed(t: Tree, x: Attrs, uid: u32, f: File, c: Credential)
    requires Sound(x) && Granted(t, x, uid) && c.uid == uid && uid != f.owner
    ensures x.access.Some? && Parse(x.access.value).Success? && Allows(Parse(x.access.value).value, f, c, Required(t))
  {
    hide Valid, Parse, Required, Allows;
    var a := Parse(x.access.value).value;
    FirstUser(a, uid);
    UserHasIsAllowed(a, f, c, Required(t));
  }

  lemma {:induction false} KeepsAccess(x: Attrs, uid: u32, changes: seq<Change>)
    requires forall c | c in changes :: !c.SetAccess?
    ensures DoAll(x, uid, changes).access == x.access
    decreases |changes|
  {
    if changes != [] {
      assert changes[0] in changes;
      KeepsAccess(Do(x, uid, changes[0]), uid, changes[1..]);
    }
  }

  /** Taking the default list leaves the access list alone. */
  lemma RevokeDefaultKeepsAccess(x: Attrs, uid: u32)
    ensures DoAll(x, uid, RevokeDefault(x, uid).writes).access == x.access
  {
    hide RevokeUser, Encode, Parse, HasNamedEntries;
    var ws := RevokeDefault(x, uid).writes;
    if |ws| == 2 {
      assert DoAll(x, uid, ws) == Do(Do(x, uid, ws[0]), uid, ws[1]);
    }
  }

  // Every single change keeps the lists sound.

  predicate SoundChange(c: Change) {
    match c
    case SetAccess(data) => SoundList(Some(data))
    case SetDefault(data) => SoundList(Some(data))
    case CreateDefault(data) => SoundList(Some(data))
    case _ => true
  }

  lemma EncodedIsSound(a: Entries)
    requires Valid(a)
    ensures SoundList(Some(Encode(a)))
  {
    hide Valid, Parse, Encode, Tight;
    ReadBack(a);
  }

  lemma GrantedIsSound(a: Entries, uid: u32, perm: u16)
    requires Valid(a) && Within(perm, 7)
    ensures Valid(GrantUser(a, uid, perm)) && SoundList(Some(Encode(GrantUser(a, uid, perm))))
  {
    hide *;
    GrantIsValid(a, uid, perm);
    EncodedIsSound(GrantUser(a, uid, perm));
  }

  lemma GrantChangesSound(t: Tree, x: Attrs, uid: u32, c: Change)
    requires Sound(x) && c in GrantNode(t, x, uid).writes
    ensures SoundChange(c)
  {
    StartIsValid(t, x);
    RequiredIsWithin(t);
    hide GrantUser, Encode, Parse, BaseACL, Base, Required, Valid, Within, SoundList, GrantDefault;
    var a := Start(t, x).value;
    var g := GrantUser(a, uid, Required(t));
    GrantedIsSound(a, uid, Required(t));
    if c != SetAccess(Encode(g)) {
      DefaultChangeSound(x, uid, g, c);
    }
  }

  lemma DefaultChangeSound(x: Attrs, uid: u32, g: Entries, c: Change)
    requires Sound(x) && Valid(g) && c in GrantDefault(x, uid, Base(g)).writes
    ensures SoundChange(c)
  {
    SmallIsWithinSeven(7);
    DefaultBase(x, g);
    DefaultWrites(x, uid, Base(g), c);
    hide *;
    var d := Read(x.default_, Base(g)).value;
    GrantedIsSound(d, uid, 7);
    SetIsSound(c);
  }

  lemma DefaultWrites(x: Attrs, uid: u32, base: Entries, c: Change)
    requires c in GrantDefault(x, uid, base).writes
    ensures Read(x.default_, base).Success?
    ensures var data := Encode(GrantUser(Read(x.default_, base).value, uid, 7));
            c == MarkCreated || c == SetDefault(data) || c == CreateDefault(data)
  {
    hide Read, Encode, GrantUser;
  }

  lemma SetIsSound(c: Change)
    requires c.SetDefault? || c.CreateDefault? ==> SoundList(Some(c.data))
    requires !c.SetAccess?
    ensures SoundChange(c)
  {
  }

  lemma DefaultBase(x: Attrs, g: Entries)
    requires Sound(x) && Valid(g)
    ensures Read(x.default_, Base(g)).Success? ==> Valid(Read(x.default_, Base(g)).value)
  {
    BaseIsValid(g);
    hide Parse, Base, Valid;
  }

  lemma RevokedIsSound(a: Entries, uid: u32)
    requires Valid(a) && HasUser(a, uid)
    ensures SoundList(Some(Encode(RevokeUser(a, uid).0)))
  {
    hide Valid, Parse, Encode, Tight, RevokeUser, HasUser;
    RevokeRights(a, uid);
    EncodedIsSound(RevokeUser(a, uid).0);
  }

  lemma RevokeChangesSound(t: Tree, x: Attrs, uid: u32, c: Change)
    requires Sound(x) && c in RevokeNode(t, x, uid).writes
    ensures SoundChange(c)
  {
    StartIsValid(t, x);
    RemovedMeansHad(x, t, uid);
    hide RevokeUser, Encode, Parse, BaseACL, Valid, HasNamedEntries, SoundList, HasUser;
    if c.SetAccess? {
      RevokedIsSound(Start(t, x).value, uid);
    }
    if c.SetDefault? {
      assert x.default_.Some? && Parse(x.default_.value).Success? by { hide SoundChange; }
      RevokedIsSound(Parse(x.default_.value).value, uid);
    }
  }

  lemma RemovedMeansHad(x: Attrs, t: Tree, uid: u32)
    ensures forall a :: RevokeUser(a, uid).1 <==> HasUser(a, uid)
  {
    hide HasNamedEntries, WithoutUser, RecalculateMask, HasUser;
  }

  lemma {:induction false} DoAllSound(x: Attrs, uid: u32, changes: seq<Change>)
    requires Sound(x) && forall c | c in changes :: SoundChange(c)
    ensures Sound(DoAll(x, uid, changes))
    decreases |changes|
  {
    assert SoundList(None);
    hide SoundList;
    if changes != [] {
      assert changes[0] in changes;
      DoAllSound(Do(x, uid, changes[0]), uid, changes[1..]);
    }
  }
}

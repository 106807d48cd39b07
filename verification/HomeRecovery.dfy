/**
 Recovery: whatever grants and revocations were stopped or refused wherever, one completed revocation
 takes everything back.  Markers make it so: a default list that a grant makes is marked before it exists
 and unmarked after it is gone.
 */
module HomeRecovery {
  import opened Wrappers
  import opened Acl
  import opened AclAccess
  import opened AclEdits
  import opened AclCodec
  import opened AclOrder
  import opened HomeTree
  import opened HomeWalk
  import opened HomeNode
  import opened HomeCrash
  import opened HomeRestore
  import opened HomeStatus
  import opened HomeOutcomes

  // Lists.

  /** A list that differs from the first one at most in what the user may do. */
  ghost predicate Near(first: Entries, a: Entries, uid: u32) {
    Valid(first) && Valid(a) && (a == first || (Tight(a) && Rights(a) - {(USER, uid)} == Rights(first)))
  }

  lemma NearGrant(first: Entries, a: Entries, uid: u32, perm: u16)
    requires Near(first, a, uid) && !HasUser(first, uid) && Within(perm, 7)
    ensures var g := GrantUser(a, uid, perm); Parse(Encode(g)) == Success(Sorted(g)) && Near(first, Sorted(g), uid)
  {
    hide Valid, Tight, Within, Rights, Parse, Encode, Sorted, GrantUser, HasUser;
    ValidIsDistinct(first);
    ValidIsDistinct(a);
    NoUserRight(first, uid);
    ReadGranted(a, uid, perm);
    PutThenDrop(Rights(a), (USER, uid), perm);
    PutThenRemoveAbsent(Rights(first), (USER, uid));
  }

  lemma PutThenDrop(m: map<Key, u16>, k: Key, v: u16)
    ensures m[k := v] - {k} == m - {k}
  {
  }

  lemma PutThenRemoveAbsent(m: map<Key, u16>, k: Key)
    requires k !in m
    ensures m - {k} == m
  {
  }

  /** A revocation brings back the rights there were at first. */
  lemma NearRevoke(first: Entries, a: Entries, uid: u32)
    requires Near(first, a, uid) && !HasUser(first, uid)
    ensures var (rest, removed) := RevokeUser(a, uid);
            if removed then
              Parse(Encode(rest)) == Success(Sorted(rest)) && Near(first, Sorted(rest), uid) && SameRights(Sorted(rest), first)
            else rest == a && SameRights(a, first)
  {
    hide Valid, Tight, Rights, RawRights, Parse, Encode, Sorted;
    ValidIsDistinct(first);
    ValidIsDistinct(a);
    if HasUser(a, uid) {
      var rest := RevokeUser(a, uid).0;
      RevokeRights(a, uid);
      TightRights(a);
      NoUserRight(first, uid);
      PutThenRemoveAbsent(Rights(first), (USER, uid));
      ReadBack(rest);
      hide RevokeUser, HasUser;
    } else {
      RevokeNobody(a, uid);
      NoUserRight(a, uid);
      PutThenRemoveAbsent(Rights(a), (USER, uid));
      hide RevokeUser, HasUser;
    }
  }

  /** A list whose only named user is this one, and with no named group. */
  ghost predicate OnlyFor(a: Entries, uid: u32) {
    Valid(a) && forall e | e in a && Named(e.tag) :: IsUser(e, uid)
  }

  lemma OnlyForGrant(a: Entries, uid: u32, perm: u16)
    requires OnlyFor(a, uid) && Within(perm, 7)
    ensures var g := GrantUser(a, uid, perm); Parse(Encode(g)) == Success(Sorted(g)) && OnlyFor(Sorted(g), uid)
  {
    var g := GrantUser(a, uid, perm);
    SortedInOrder(g);
    ReadGranted(a, uid, perm);
    hide GrantUser, Within, Sorted, Valid, Parse, Encode, Tight, Rights, HasUser;
    forall e | e in Sorted(g) && Named(e.tag) ensures IsUser(e, uid) {
      OnlyForMember(a, uid, perm, e);
    }
  }

  lemma OnlyForMember(a: Entries, uid: u32, perm: u16, e: Entry)
    requires OnlyFor(a, uid) && e in GrantUser(a, uid, perm) && Named(e.tag)
    ensures IsUser(e, uid)
  {
    NamedGranted(a, uid, perm, e);
    hide Valid, GrantUser;
  }

  lemma OnlyForBase(a: Entries, uid: u32)
    requires Valid(a)
    ensures OnlyFor(Base(a), uid)
  {
    BaseIsValid(a);
    hide Valid;
  }

  /** Without the user it has no named entry. */
  lemma OnlyForRevoke(a: Entries, uid: u32)
    requires OnlyFor(a, uid)
    ensures !HasNamedEntries(RevokeUser(a, uid).0)
  {
    hide Valid, RecalculateMask;
    forall e | e in WithoutUser(a, uid) ensures !Named(e.tag) {
    }
    if !HasUser(a, uid) {
      forall e | e in a ensures !Named(e.tag) {
        assert e in WithoutUser(a, uid);
      }
    }
  }

  // Nodes.

  /** A list read as it is in the store. */
  function ListOf(data: Option<Bytes>): Result<Entries, ParseError> {
    if data.None? then Failure(InvalidXattr) else Parse(data.value)
  }

  ghost predicate DefaultNear(first: Attrs, x: Attrs, uid: u32) {
    if first.default_.None? then
      x.default_.None? || (uid in x.created && ListOf(x.default_).Success? && OnlyFor(ListOf(x.default_).value, uid))
    else
      && uid !in x.created && ListOf(first.default_).Success? && ListOf(x.default_).Success?
      && Near(ListOf(first.default_).value, ListOf(x.default_).value, uid)
  }

  ghost predicate AccessNear(t: Tree, first: Attrs, x: Attrs, uid: u32) {
    Start(t, first).Success? && Start(t, x).Success? && Near(Start(t, first).value, Start(t, x).value, uid)
  }

  /** What interrupted calls may have made of a node. */
  ghost predicate Recoverable(t: Tree, first: Attrs, x: Attrs, uid: u32) {
    && AccessNear(t, first, x, uid)
    && x.created - {uid} == first.created
    && if t.kind.Directory? then DefaultNear(first, x, uid) else x.default_ == first.default_ && x.created == first.created
  }

  /** A change that keeps a node recoverable, given what it finds. */
  ghost predicate Fine(t: Tree, first: Attrs, x: Attrs, uid: u32, c: Change) {
    match c
    case SetAccess(b) => Start(t, first).Success? && Parse(b).Success? && Near(Start(t, first).value, Parse(b).value, uid)
    case MarkCreated => t.kind.Directory? && first.default_.None?
    case CreateDefault(b) => t.kind.Directory? && DefaultNear(first, x.(default_ := Some(b)), uid)
    case SetDefault(b) => t.kind.Directory? && DefaultNear(first, x.(default_ := Some(b)), uid)
    case DropDefault => t.kind.Directory? && first.default_.None?
    case DropCreated => t.kind.Directory? && (first.default_.Some? || x.default_.None?)
    case _ => true
  }

  /** Changes that keep a node recoverable, however far they get, whether or not the creation marker can be
      removed, and if it is taken back because a new default list was refused. */
  ghost predicate AllFine(t: Tree, first: Attrs, x: Attrs, uid: u32, changes: seq<Change>)
    decreases |changes|
  {
    changes == [] || (
      && Fine(t, first, x, uid, changes[0]) && AllFine(t, first, Do(x, uid, changes[0]), uid, changes[1..])
      && (changes[0].DropCreated? ==> AllFine(t, first, x, uid, changes[1..]))
      && (changes[0].CreateDefault? ==> Fine(t, first, x, uid, DropCreated)))
  }

  lemma FineKeeps(t: Tree, first: Attrs, x: Attrs, uid: u32, c: Change)
    requires Recoverable(t, first, x, uid) && uid !in first.created && Fine(t, first, x, uid, c)
    ensures Recoverable(t, first, Do(x, uid, c), uid)
  {
    hide Near, OnlyFor, Parse, BaseACL;
  }

  /** Whatever takes effect of them. */
  lemma {:induction false} PossibleKeeps(t: Tree, first: Attrs, x: Attrs, uid: u32, planned: seq<Change>, done: seq<Change>)
    requires Recoverable(t, first, x, uid) && uid !in first.created && AllFine(t, first, x, uid, planned) && Possible(planned, done)
    ensures Recoverable(t, first, DoAll(x, uid, done), uid)
    decreases |planned|
  {
    hide Recoverable, Fine, Do;
    if done == [] {
    } else if planned != [] && planned[0] == done[0] && Possible(planned[1..], done[1..]) {
      FineKeeps(t, first, x, uid, planned[0]);
      PossibleKeeps(t, first, Do(x, uid, planned[0]), uid, planned[1..], done[1..]);
    } else if planned[0].DropCreated? && Possible(planned[1..], done) {
      PossibleKeeps(t, first, x, uid, planned[1..], done);
    } else {
      FineKeeps(t, first, x, uid, DropCreated);
      DoOne(x, uid, DropCreated);
    }
  }

  lemma FineOne(t: Tree, first: Attrs, x: Attrs, uid: u32, c: Change)
    requires Fine(t, first, x, uid, c) && (c.CreateDefault? ==> Fine(t, first, x, uid, DropCreated))
    ensures AllFine(t, first, x, uid, [c])
  {
    hide Fine;
  }

  lemma FineMore(t: Tree, first: Attrs, x: Attrs, uid: u32, c: Change, rest: seq<Change>)
    requires !c.DropCreated? && !c.CreateDefault?
    requires Fine(t, first, x, uid, c) && AllFine(t, first, Do(x, uid, c), uid, rest)
    ensures AllFine(t, first, x, uid, [c] + rest)
  {
    hide Fine;
    assert ([c] + rest)[1..] == rest;
  }

  /** Further changes that are fine in any state. */
  lemma {:induction false} FineAppend(t: Tree, first: Attrs, x: Attrs, uid: u32, a: seq<Change>, b: seq<Change>)
    requires AllFine(t, first, x, uid, a) && forall y :: AllFine(t, first, y, uid, b)
    ensures AllFine(t, first, x, uid, a + b)
    decreases |a|
  {
    hide Fine, Do;
    if a == [] {
      assert [] + b == b;
    } else {
      assert (a + b)[1..] == a[1..] + b && (a + b)[0] == a[0];
      FineAppend(t, first, Do(x, uid, a[0]), uid, a[1..], b);
      if a[0].DropCreated? {
        FineAppend(t, first, x, uid, a[1..], b);
      }
    }
  }

  lemma {:induction false} FinePrefix(t: Tree, first: Attrs, x: Attrs, uid: u32, changes: seq<Change>, part: seq<Change>)
    requires AllFine(t, first, x, uid, changes) && part <= changes
    ensures AllFine(t, first, x, uid, part)
    decreases |changes|
  {
    hide Fine, Do;
    if part != [] {
      FinePrefix(t, first, Do(x, uid, changes[0]), uid, changes[1..], part[1..]);
      if changes[0].DropCreated? {
        FinePrefix(t, first, x, uid, changes[1..], part[1..]);
      }
    }
  }

  lemma FineSame(t: Tree, first: Attrs, x: Attrs, y: Attrs, uid: u32, c: Change)
    requires SameLists(x, y)
    ensures Fine(t, first, x, uid, c) <==> Fine(t, first, y, uid, c)
  {
    hide Near, OnlyFor, Parse, BaseACL;
  }

  lemma {:induction false} AllFineSame(t: Tree, first: Attrs, x: Attrs, y: Attrs, uid: u32, changes: seq<Change>)
    requires SameLists(x, y) && AllFine(t, first, x, uid, changes)
    ensures AllFine(t, first, y, uid, changes)
    decreases |changes|
  {
    hide Fine;
    if changes != [] {
      FineSame(t, first, x, y, uid, changes[0]);
      FineSame(t, first, x, y, uid, DropCreated);
      AllFineSame(t, first, Do(x, uid, changes[0]), Do(y, uid, changes[0]), uid, changes[1..]);
      if changes[0].DropCreated? {
        AllFineSame(t, first, x, y, uid, changes[1..]);
      }
    }
  }

  /** Completion markers do not matter. */
  lemma MarkedFine(t: Tree, first: Attrs, x: Attrs, uid: u32, before: seq<Change>, own: seq<Change>, after: seq<Change>)
    requires AllFine(t, first, x, uid, own)
    requires before == [] || before == [DropComplete]
    requires after == [] || after == [DropComplete] || after == [MarkComplete]
    ensures AllFine(t, first, x, uid, before + own + after)
  {
    forall y ensures AllFine(t, first, y, uid, after) {
      MarkerFine(t, first, y, uid, after);
    }
    var z := Do(x, uid, DropComplete);
    AllFineSame(t, first, x, z, uid, own);
    hide Fine, AllFine, Do;
    FineAppend(t, first, x, uid, own, after);
    FineAppend(t, first, z, uid, own, after);
    if before == [] {
      assert [] + own + after == own + after;
    } else {
      DropCompleteFine(t, first, x, uid);
      FineMore(t, first, x, uid, DropComplete, own + after);
      assert [DropComplete] + own + after == [DropComplete] + (own + after);
    }
  }

  lemma DropCompleteFine(t: Tree, first: Attrs, x: Attrs, uid: u32)
    ensures Fine(t, first, x, uid, DropComplete)
  {
  }

  lemma MarkerFine(t: Tree, first: Attrs, x: Attrs, uid: u32, after: seq<Change>)
    requires after == [] || after == [DropComplete] || after == [MarkComplete]
    ensures AllFine(t, first, x, uid, after)
  {
  }

  /** Where a node can be granted and has not been touched. */
  ghost predicate Fresh(t: Tree, first: Attrs, uid: u32) {
    && Sound(first) && Untouched(t, first, uid) && Start(t, first).Success?
    && (t.kind.Directory? && first.default_.Some? ==> Parse(first.default_.value).Success?)
  }

  lemma FreshIsRecoverable(t: Tree, first: Attrs, uid: u32)
    requires Fresh(t, first, uid)
    ensures Recoverable(t, first, first, uid)
  {
    StartIsValid(t, first);
    hide Valid, Parse, BaseACL, Tight, Rights, HasUser;
  }

  // What grants do.

  lemma GrantAccessFine(t: Tree, first: Attrs, x: Attrs, uid: u32)
    requires Fresh(t, first, uid) && Recoverable(t, first, x, uid)
    ensures Start(t, x).Success? && Valid(Start(t, x).value)
    ensures var g := GrantUser(Start(t, x).value, uid, Required(t));
            Valid(g) && Fine(t, first, x, uid, SetAccess(Encode(g)))
  {
    RequiredIsWithin(t);
    hide Parse, BaseACL, Required, HasUser, Valid, GrantUser, Encode, Within, Sorted, Tight, Rights;
    NearGrant(Start(t, first).value, Start(t, x).value, uid, Required(t));
    GrantIsValid(Start(t, x).value, uid, Required(t));
  }

  lemma GrantDefaultFine(t: Tree, first: Attrs, x: Attrs, uid: u32, g: Entries)
    requires t.kind.Directory? && Fresh(t, first, uid) && DefaultNear(first, x, uid) && Valid(g)
    ensures GrantDefault(x, uid, Base(g)).ok && AllFine(t, first, x, uid, GrantDefault(x, uid, Base(g)).writes)
  {
    SmallIsWithinSeven(7);
    if x.default_.Some? {
      DefaultIsReadable(first, x, uid);
      MoreDefaultFine(t, first, x, uid);
      hide Parse, Base, GrantUser, Encode, AllFine, DefaultNear, Fresh, Within;
    } else {
      NewDefaultFine(t, first, x, uid, g);
      hide Parse, Base, GrantUser, Encode, AllFine, DefaultNear, Fresh, Within;
    }
  }

  lemma DefaultIsReadable(first: Attrs, x: Attrs, uid: u32)
    requires DefaultNear(first, x, uid) && x.default_.Some?
    ensures Parse(x.default_.value).Success?
  {
    hide Parse, Near, OnlyFor;
  }

  lemma MoreDefaultFine(t: Tree, first: Attrs, x: Attrs, uid: u32)
    requires t.kind.Directory? && Fresh(t, first, uid) && DefaultNear(first, x, uid) && x.default_.Some?
    requires Parse(x.default_.value).Success? && Within(7, 7)
    ensures AllFine(t, first, x, uid, [SetDefault(Encode(GrantUser(Parse(x.default_.value).value, uid, 7)))])
  {
    hide Parse, BaseACL, HasUser, Valid, GrantUser, Encode, Within, Sorted, Near, OnlyFor, AllFine, Start, Sound;
    var a := Parse(x.default_.value).value;
    if first.default_.Some? {
      NearGrant(Parse(first.default_.value).value, a, uid, 7);
    } else {
      OnlyForGrant(a, uid, 7);
    }
    FineOne(t, first, x, uid, SetDefault(Encode(GrantUser(a, uid, 7))));
  }

  lemma NewDefaultFine(t: Tree, first: Attrs, x: Attrs, uid: u32, g: Entries)
    requires t.kind.Directory? && DefaultNear(first, x, uid) && x.default_.None? && Valid(g) && Within(7, 7)
    ensures AllFine(t, first, x, uid, [MarkCreated, CreateDefault(Encode(GrantUser(Base(g), uid, 7)))])
  {
    hide Parse, Base, Valid, GrantUser, Encode, Within, Sorted, Near, OnlyFor, AllFine;
    OnlyForBase(g, uid);
    OnlyForGrant(Base(g), uid, 7);
    var b := Encode(GrantUser(Base(g), uid, 7));
    FineOne(t, first, Do(x, uid, MarkCreated), uid, CreateDefault(b));
    FineMore(t, first, x, uid, MarkCreated, [CreateDefault(b)]);
    assert [MarkCreated, CreateDefault(b)] == [MarkCreated] + [CreateDefault(b)];
  }

  lemma GrantFine(t: Tree, first: Attrs, x: Attrs, uid: u32)
    requires Fresh(t, first, uid) && Recoverable(t, first, x, uid)
    ensures GrantNode(t, x, uid).ok && AllFine(t, first, x, uid, GrantNode(t, x, uid).writes)
  {
    GrantAccessFine(t, first, x, uid);
    var g := GrantUser(Start(t, x).value, uid, Required(t));
    var c := SetAccess(Encode(g));
    if t.kind.Directory? {
      GrantDefaultFine(t, first, Do(x, uid, c), uid, g);
      SameGrantDefault(x, Do(x, uid, c), uid, Base(g));
      FineMore(t, first, x, uid, c, GrantDefault(x, uid, Base(g)).writes);
    } else {
      FineOne(t, first, x, uid, c);
    }
    hide GrantDefault, Fine, AllFine, Fresh, Recoverable, GrantUser, Encode, BaseACL, Base, Required, Parse, Valid;
  }

  lemma SameGrantDefault(x: Attrs, y: Attrs, uid: u32, base: Entries)
    requires x.default_ == y.default_
    ensures GrantDefault(x, uid, base) == GrantDefault(y, uid, base)
  {
  }

  // What revocations do.

  lemma RevokeAccessFine(t: Tree, first: Attrs, x: Attrs, uid: u32)
    requires Fresh(t, first, uid) && AccessNear(t, first, x, uid)
    ensures RevokeAccess(t, x, uid).ok && forall y :: AllFine(t, first, y, uid, RevokeAccess(t, x, uid).writes)
    ensures var z := DoAll(x, uid, RevokeAccess(t, x, uid).writes);
            Start(t, z).Success? && SameRights(Start(t, z).value, Start(t, first).value)
  {
    hide Parse, BaseACL, HasUser, RevokeUser, Encode, Near, SameRights, AllFine, DoAll;
    var a := Start(t, x).value;
    NearRevoke(Start(t, first).value, a, uid);
    DoNothing(x, uid);
    forall y ensures AllFine(t, first, y, uid, []) {
      MarkerFine(t, first, y, uid, []);
    }
    if RevokeUser(a, uid).1 {
      var b := Encode(RevokeUser(a, uid).0);
      forall y ensures AllFine(t, first, y, uid, [SetAccess(b)]) {
        FineOne(t, first, y, uid, SetAccess(b));
      }
      DoOne(x, uid, SetAccess(b));
    }
  }

  /** What the default list of a directory has become. */
  ghost predicate DefaultBack(first: Attrs, z: Attrs, uid: u32) {
    && z.created == first.created
    && (first.default_.None? ==> z.default_.None?)
    && (first.default_.Some? ==> Parse(first.default_.value).Success? && Stores(z.default_, Parse(first.default_.value).value))
  }

  lemma RevokeDefaultFine(t: Tree, first: Attrs, x: Attrs, uid: u32)
    requires t.kind.Directory? && Fresh(t, first, uid) && DefaultNear(first, x, uid) && x.created - {uid} == first.created
    ensures RevokeDefault(x, uid).ok && AllFine(t, first, x, uid, RevokeDefault(x, uid).writes)
    ensures DefaultBack(first, DoAll(x, uid, RevokeDefault(x, uid).writes), uid)
  {
    if first.default_.Some? {
      OldDefaultBack(t, first, x, uid);
    } else if x.default_.Some? {
      NewDefaultGone(t, first, x, uid);
    } else {
      DoOne(x, uid, DropCreated);
      FineOne(t, first, x, uid, DropCreated);
      hide AllFine, DoAll, Fresh;
    }
  }

  lemma OldDefaultBack(t: Tree, first: Attrs, x: Attrs, uid: u32)
    requires t.kind.Directory? && first.default_.Some? && Fresh(t, first, uid) && DefaultNear(first, x, uid) && x.created - {uid} == first.created
    ensures RevokeDefault(x, uid).ok && AllFine(t, first, x, uid, RevokeDefault(x, uid).writes)
    ensures DefaultBack(first, DoAll(x, uid, RevokeDefault(x, uid).writes), uid)
  {
    hide Parse, HasUser, RevokeUser, Encode, Near, SameRights, AllFine, DoAll, HasNamedEntries, BaseACL;
    var a := Parse(x.default_.value).value;
    NearRevoke(Parse(first.default_.value).value, a, uid);
    MarkerFine(t, first, x, uid, []);
    DoNothing(x, uid);
    if RevokeUser(a, uid).1 {
      var b := Encode(RevokeUser(a, uid).0);
      FineOne(t, first, x, uid, SetDefault(b));
      DoOne(x, uid, SetDefault(b));
    }
  }

  lemma NewDefaultGone(t: Tree, first: Attrs, x: Attrs, uid: u32)
    requires t.kind.Directory? && first.default_.None? && x.default_.Some? && DefaultNear(first, x, uid) && x.created - {uid} == first.created
    ensures RevokeDefault(x, uid) == Plan([DropDefault, DropCreated], true)
    ensures AllFine(t, first, x, uid, [DropDefault, DropCreated])
    ensures DefaultBack(first, DoAll(x, uid, [DropDefault, DropCreated]), uid)
  {
    hide Parse, RevokeUser, Encode, HasNamedEntries, AllFine, DoAll;
    OnlyForRevoke(Parse(x.default_.value).value, uid);
    var y := Do(x, uid, DropDefault);
    FineOne(t, first, y, uid, DropCreated);
    FineMore(t, first, x, uid, DropDefault, [DropCreated]);
    DoOne(y, uid, DropCreated);
    DoFirst(x, uid, DropDefault, [DropCreated]);
    assert [DropDefault, DropCreated] == [DropDefault] + [DropCreated];
  }

  /** A completed revocation of a node brings it back. */
  lemma RevokeFine(t: Tree, first: Attrs, x: Attrs, uid: u32)
    requires Fresh(t, first, uid) && Recoverable(t, first, x, uid)
    ensures RevokeNode(t, x, uid).ok && AllFine(t, first, x, uid, RevokeNode(t, x, uid).writes)
    ensures Restored(t, first, DoAll(x, uid, RevokeNode(t, x, uid).writes))
  {
    if t.kind.Directory? {
      DirectoryBack(t, first, x, uid);
    } else {
      FileBack(t, first, x, uid);
    }
  }

  lemma FileBack(t: Tree, first: Attrs, x: Attrs, uid: u32)
    requires !t.kind.Directory? && Fresh(t, first, uid) && Recoverable(t, first, x, uid)
    ensures RevokeNode(t, x, uid).ok && AllFine(t, first, x, uid, RevokeNode(t, x, uid).writes)
    ensures Restored(t, first, DoAll(x, uid, RevokeNode(t, x, uid).writes))
  {
    RevokeAccessFine(t, first, x, uid);
    AccessOnly(t, x, uid);
    assert [] + RevokeAccess(t, x, uid).writes == RevokeAccess(t, x, uid).writes;
    hide RevokeAccess, RevokeDefault, AllFine, DoAll, Fresh, Start, SameRights, Stores, AccessNear;
  }

  lemma AccessOnly(t: Tree, x: Attrs, uid: u32)
    ensures var z := DoAll(x, uid, RevokeAccess(t, x, uid).writes); z.default_ == x.default_ && z.created == x.created
  {
    hide Parse, BaseACL, RevokeUser, Encode, DoAll;
    DoNothing(x, uid);
    if Start(t, x).Success? {
      DoOne(x, uid, SetAccess(Encode(RevokeUser(Start(t, x).value, uid).0)));
    }
  }

  lemma DirectoryBack(t: Tree, first: Attrs, x: Attrs, uid: u32)
    requires t.kind.Directory? && Fresh(t, first, uid) && Recoverable(t, first, x, uid)
    ensures RevokeNode(t, x, uid).ok && AllFine(t, first, x, uid, RevokeNode(t, x, uid).writes)
    ensures Restored(t, first, DoAll(x, uid, RevokeNode(t, x, uid).writes))
  {
    var y := DoAll(x, uid, RevokeDefault(x, uid).writes);
    RevokeDefaultFine(t, first, x, uid);
    RevokeDefaultKeepsAccess(x, uid);
    SameAccess(t, x, y, uid);
    hide RevokeAccess, RevokeDefault, AllFine, DoAll, Fresh, Start, SameRights, Stores, DefaultNear, Near;
    RevokeAccessFine(t, first, y, uid);
    AccessOnly(t, y, uid);
    FineAppend(t, first, x, uid, RevokeDefault(x, uid).writes, RevokeAccess(t, x, uid).writes);
    DoBoth(x, uid, RevokeDefault(x, uid).writes, RevokeAccess(t, x, uid).writes);
  }

  lemma SameAccess(t: Tree, x: Attrs, y: Attrs, uid: u32)
    requires x.access == y.access
    ensures RevokeAccess(t, x, uid) == RevokeAccess(t, y, uid) && Start(t, x) == Start(t, y)
  {
  }

  // The whole home.

  ghost predicate FreshHome(s: Store, home: Tree, uid: u32) {
    && home.kind.Directory? && uid !in At(s, home.id).complete
    && forall x | x in Covered(home, home.device) :: Fresh(x, At(s, x.id), uid)
  }

  /** What interrupted calls may have made of a home. */
  ghost predicate RecoverableHome(first: Store, s: Store, home: Tree, uid: u32) {
    && (forall x | x in Covered(home, home.device) :: Recoverable(x, At(first, x.id), At(s, x.id), uid))
    && (forall n :: At(s, n).complete - {uid} == At(first, n).complete - {uid})
    && (forall n | n != home.id :: At(s, n).complete == At(first, n).complete)
    && (forall n | !InBoundary(home, home.device, n) :: At(s, n) == At(first, n))
  }

  /** Markers of other users and of other nodes stay. */
  lemma {:induction false} CompleteStays(x: Attrs, uid: u32, changes: seq<Change>)
    ensures DoAll(x, uid, changes).complete - {uid} == x.complete - {uid}
    ensures MarkComplete !in changes && DropComplete !in changes ==> DoAll(x, uid, changes).complete == x.complete
    decreases |changes|
  {
    if changes != [] {
      CompleteStays(Do(x, uid, changes[0]), uid, changes[1..]);
    }
  }

  lemma CompleteAtNode(s: Store, home: Tree, uid: u32, trial: Trial, n: NodeId)
    requires Simple(home)
    ensures At(AfterTrial(s, home, uid, trial), n).complete - {uid} == At(s, n).complete - {uid}
    ensures n != home.id ==> At(AfterTrial(s, home, uid, trial), n).complete == At(s, n).complete
  {
    var ws := TrialWrites(s, home, uid, trial);
    var done := Performed(trial.Remaining(), ws);
    AtAfter(s, uid, done, n);
    PerformedFrom(trial.Remaining(), ws, n);
    CompleteStays(At(s, n), uid, Of(done, n));
    if n != home.id && home.kind.Directory? {
      OtherNeverMarked(s, home, uid, trial.action, trial.Clears(), n);
    }
    hide ManagePlan, PerformAll, DoAll, Of, Simple, Performed;
  }

  lemma OtherNeverMarked(s: Store, home: Tree, uid: u32, action: Action, clears: bool, n: NodeId)
    requires Simple(home) && home.kind.Directory? && n != home.id
    ensures var changes := Of(ManagePlan(s, home, action, uid, clears).writes, n); MarkComplete !in changes && DropComplete !in changes
  {
    ManageOf(s, home, action, uid, clears, n);
    hide ManagePlan, WalkPlan, NodePlan, Of, Simple, Covered;
    if InBoundary(home, home.device, n) {
      var x :| x in Covered(home, home.device) && x.id == n;
      WalkOf(s, home, home.device, action, uid, x);
      NodeNeverMarks(x, At(s, n), action, uid);
    } else {
      WalkElsewhere(s, home, home.device, action, uid, n);
    }
  }

  lemma TrialElsewhere(s: Store, home: Tree, uid: u32, trial: Trial, n: NodeId)
    requires !InBoundary(home, home.device, n)
    ensures At(AfterTrial(s, home, uid, trial), n) == At(s, n)
  {
    var ws := TrialWrites(s, home, uid, trial);
    AtAfter(s, uid, Performed(trial.Remaining(), ws), n);
    PerformedFrom(trial.Remaining(), ws, n);
    HomeIsCovered(home);
    if home.kind.Directory? {
      ManageOf(s, home, trial.action, uid, trial.Clears(), n);
      WalkElsewhere(s, home, home.device, trial.action, uid, n);
    }
    hide ManagePlan, PerformAll, Performed, WalkPlan;
  }

  /** What is planned for a node of the boundary keeps it recoverable. */
  lemma PlannedFine(first: Attrs, s: Store, home: Tree, uid: u32, action: Action, clears: bool, x: Tree)
    requires Simple(home) && home.kind.Directory? && x in Covered(home, home.device)
    requires Fresh(x, first, uid) && Recoverable(x, first, At(s, x.id), uid)
    ensures AllFine(x, first, At(s, x.id), uid, Of(ManagePlan(s, home, action, uid, clears).writes, x.id))
  {
    var own := NodePlan(x, At(s, x.id), action, uid).writes;
    var walk := WalkPlan(s, home, home.device, action, uid);
    if action == Grant {
      GrantFine(x, first, At(s, x.id), uid);
    } else {
      RevokeFine(x, first, At(s, x.id), uid);
    }
    ManageOf(s, home, action, uid, clears, x.id);
    WalkOf(s, home, home.device, action, uid, x);
    hide ManagePlan, WalkPlan, Of, Covered, NodePlan, Simple, AllFine, Fresh, Recoverable, Restored, GrantNode, RevokeNode;
    FinePrefix(x, first, At(s, x.id), uid, own, Of(walk.writes, x.id));
    MarkedFine(x, first, At(s, x.id), uid,
      if x.id == home.id && action == Grant && clears then [DropComplete] else [],
      Of(walk.writes, x.id),
      if x.id != home.id || !walk.ok then [] else if action == Grant then [MarkComplete] else [DropComplete]);
  }

  lemma NodeStaysRecoverable(first: Store, s: Store, home: Tree, uid: u32, trial: Trial, x: Tree)
    requires Simple(home) && home.kind.Directory? && x in Covered(home, home.device)
    requires Fresh(x, At(first, x.id), uid) && Recoverable(x, At(first, x.id), At(s, x.id), uid)
    ensures Recoverable(x, At(first, x.id), At(AfterTrial(s, home, uid, trial), x.id), uid)
  {
    var ws := TrialWrites(s, home, uid, trial);
    hide Simple, Covered, Fresh, Recoverable, AllFine, ManagePlan, Possible, Performed, PerformAll, Of, DoAll, At;
    PlannedFine(At(first, x.id), s, home, uid, trial.action, trial.Clears(), x);
    PossibleAt(trial.Remaining(), ws, x.id);
    FreshUnmarked(x, At(first, x.id), uid);
    PossibleKeeps(x, At(first, x.id), At(s, x.id), uid, Of(ws, x.id), Of(Performed(trial.Remaining(), ws), x.id));
    AtAfter(s, uid, Performed(trial.Remaining(), ws), x.id);
  }

  lemma StaysRecoverable(first: Store, s: Store, home: Tree, uid: u32, trial: Trial)
    requires Simple(home) && FreshHome(first, home, uid) && RecoverableHome(first, s, home, uid)
    ensures RecoverableHome(first, AfterTrial(s, home, uid, trial), home, uid)
  {
    var r := AfterTrial(s, home, uid, trial);
    hide AfterTrial, Simple, Recoverable, Fresh, Covered;
    forall x | x in Covered(home, home.device) ensures Recoverable(x, At(first, x.id), At(r, x.id), uid) {
      NodeStaysRecoverable(first, s, home, uid, trial, x);
    }
    forall n {
      CompleteAtNode(s, home, uid, trial, n);
    }
    forall n | !InBoundary(home, home.device, n) ensures At(r, n) == At(first, n) {
      TrialElsewhere(s, home, uid, trial, n);
    }
  }

  lemma FreshUnmarked(t: Tree, first: Attrs, uid: u32)
    requires Fresh(t, first, uid)
    ensures uid !in first.created
  {
  }

  lemma {:induction false} AllStayRecoverable(first: Store, s: Store, home: Tree, uid: u32, trials: seq<Trial>)
    requires Simple(home) && FreshHome(first, home, uid) && RecoverableHome(first, s, home, uid)
    ensures RecoverableHome(first, AfterTrials(s, home, uid, trials), home, uid)
    decreases |trials|
  {
    hide AfterTrial, Simple, FreshHome, RecoverableHome;
    if trials != [] {
      StaysRecoverable(first, s, home, uid, trials[0]);
      AllStayRecoverable(first, AfterTrial(s, home, uid, trials[0]), home, uid, trials[1..]);
    }
  }

  /** A home that can be granted and was not touched. */
  lemma GrantableIsFresh(s: Store, home: Tree, uid: u32)
    requires SoundStore(s) && UntouchedHome(s, home, uid) && ManagePlan(s, home, Grant, uid, true).ok
    ensures FreshHome(s, home, uid) && RecoverableHome(s, s, home, uid)
  {
    CallSucceeds(s, home, Grant, uid, true);
    hide ManagePlan, Untouched, Sound, Covered, Fresh, Recoverable;
    forall x | x in Covered(home, home.device) ensures Fresh(x, At(s, x.id), uid) && Recoverable(x, At(s, x.id), At(s, x.id), uid) {
      assert Sound(At(s, x.id)) && GrantNode(x, At(s, x.id), uid).ok;
      OkIsFresh(x, At(s, x.id), uid);
      FreshIsRecoverable(x, At(s, x.id), uid);
    }
  }

  lemma OkIsFresh(t: Tree, x: Attrs, uid: u32)
    requires Sound(x) && Untouched(t, x, uid) && GrantNode(t, x, uid).ok
    ensures Fresh(t, x, uid)
  {
    hide GrantUser, Encode, Parse, BaseACL, Base, Required, HasUser, Valid;
  }

  /** Recovery, for a user that is named nowhere and has no markers, in a home that can be granted: after
      any grants and revocations, with any writes refused and each stopped anywhere, a revocation whose
      writes take effect succeeds; at every node of the boundary the lists permit what they permitted at
      first, default lists that grants made are gone, no marker of the user is left, and outside nothing
      has changed. */
  lemma RevocationRecovers(s: Store, home: Tree, uid: u32, trials: seq<Trial>, n: NodeId)
    requires Simple(home) && SoundStore(s) && UntouchedHome(s, home, uid) && ManagePlan(s, home, Grant, uid, true).ok
    ensures var r := AfterTrials(s, home, uid, trials);
            var back := Completed(r, home, Revoke, uid, true);
            && ManagePlan(r, home, Revoke, uid, true).ok
            && (forall x | x in Covered(home, home.device) && x.id == n :: Restored(x, At(s, n), At(back, n)))
            && (!InBoundary(home, home.device, n) ==> At(back, n) == At(s, n))
            && At(back, n).complete == At(s, n).complete
  {
    var r := AfterTrials(s, home, uid, trials);
    GrantableIsFresh(s, home, uid);
    AllStayRecoverable(s, s, home, uid, trials);
    hide Simple, SoundStore, UntouchedHome, ManagePlan, AfterTrials, Completed;
    RecoverableIsRevoked(s, r, home, uid, n);
  }

  lemma RecoverableIsRevoked(s: Store, r: Store, home: Tree, uid: u32, n: NodeId)
    requires Simple(home) && FreshHome(s, home, uid) && RecoverableHome(s, r, home, uid)
    ensures var back := Completed(r, home, Revoke, uid, true);
            && ManagePlan(r, home, Revoke, uid, true).ok
            && (forall x | x in Covered(home, home.device) && x.id == n :: Restored(x, At(s, n), At(back, n)))
            && (!InBoundary(home, home.device, n) ==> At(back, n) == At(s, n))
            && At(back, n).complete == At(s, n).complete
  {
    hide Simple, PerformAll, Covered, RevokeNode, DoAll, Marked, ManagePlan, Fresh, Recoverable, Restored, AllFine;
    forall x | x in Covered(home, home.device)
      ensures RevokeNode(x, At(r, x.id), uid).ok
           && Restored(x, At(s, x.id), DoAll(At(r, x.id), uid, RevokeNode(x, At(r, x.id), uid).writes))
    {
      RevokeFine(x, At(s, x.id), At(r, x.id), uid);
    }
    CallSucceeds(r, home, Revoke, uid, true);
    CompletedIsExact(r, home, Revoke, uid, true, n);
    CompletedUnfold(r, home, Revoke, uid, true);
    CompleteAfter(r, home, Revoke, uid, true, n);
    hide Completed;
    forall x | x in Covered(home, home.device) && x.id == n
      ensures Restored(x, At(s, n), At(Completed(r, home, Revoke, uid, true), n))
    {
      RestoredMarked(x, At(s, n), DoAll(At(r, n), uid, RevokeNode(x, At(r, n), uid).writes), n == home.id, uid);
    }
  }
}

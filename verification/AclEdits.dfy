/**
 Grants and revocations against the access check: they change the rights of one user and of nobody
 else, exactly as far as the code does.
 */
module AclEdits {
  import opened Wrappers
  import opened Acl
  import opened AclAccess

  // Granting.

  /** The members of a granted list. */
  lemma GrantMembers(a: Entries, uid: u32, perm: u16)
    requires Valid(a)
    ensures var c := SetUser(Collapse(a, EffectiveMask(a)), uid, perm);
            var r := GrantUser(a, uid, perm);
            && Distinct(r) && Entry(USER, perm, uid) in r
            && (forall e | e in a && e.tag != MASK :: SetEntry(e, EffectiveMask(a), uid, perm) in r)
            && (forall e | e in r && e.tag != MASK :: e == Entry(USER, perm, uid) ||
                  exists f | f in a :: f.tag != MASK && !IsUser(f, uid) && e == CollapseEntry(f, EffectiveMask(a)))
            && (forall e: Entry | e.tag == MASK :: e in r <==> e == Entry(MASK, Union(c), UNDEFINED))
            && (forall e | e in r && GroupClass(e.tag) :: e in c)
  {
    hide Meet, Within, Union;
    var mask := EffectiveMask(a);
    var c := SetUser(Collapse(a, mask), uid, perm);
    SetUserDistinct(a, mask, uid, perm);
    SetUserMembers(a, mask, uid, perm);
    hide SetUser, Collapse;
    forall e | e in c && e.tag == MASK ensures e.id == UNDEFINED {
      var f :| f in a && !IsUser(f, uid) && e == CollapseEntry(f, mask);
      assert ValidEntry(f);
    }
    RecalculateMaskMembers(c);
  }

  /** Where an entry of a granted list comes from. */
  lemma GrantedFrom(a: Entries, uid: u32, perm: u16, e: Entry) returns (f: Entry)
    requires Valid(a) && e in GrantUser(a, uid, perm) && e.tag != MASK && e != Entry(USER, perm, uid)
    ensures f in a && !IsUser(f, uid) && e == CollapseEntry(f, EffectiveMask(a))
  {
    GrantMembers(a, uid, perm);
    hide *;
    f :| f in a && f.tag != MASK && !IsUser(f, uid) && e == CollapseEntry(f, EffectiveMask(a));
  }

  /** The mask of a granted list is the union of its group class. */
  lemma GrantIsTight(a: Entries, uid: u32, perm: u16)
    requires Valid(a) && Within(perm, 7)
    ensures var c := SetUser(Collapse(a, EffectiveMask(a)), uid, perm);
            && Within(Union(c), 7) && Entry(MASK, Union(c), UNDEFINED) in GrantUser(a, uid, perm)
    ensures Tight(GrantUser(a, uid, perm))
  {
    var c := SetUser(Collapse(a, EffectiveMask(a)), uid, perm);
    var r := GrantUser(a, uid, perm);
    GrantMembers(a, uid, perm);
    hide Meet, Within, Union, SetUser, Collapse, GrantUser;
    forall e | e in c && GroupClass(e.tag) ensures Within(e.perm, 7) {
      GrantedPerm(a, uid, perm, e);
    }
    UnionIsLeast(c, 7);
    var m := Entry(MASK, Union(c), UNDEFINED);
    assert m in r;
    MaskEntry(r, m);
    forall e | e in r && GroupClass(e.tag) ensures Within(e.perm, EffectiveMask(r)) {
      UnionCovers(c, e);
    }
  }

  lemma OneNamed(a: Entries, uid: u32, perm: u16, e: Entry)
    requires Valid(a) && !HasNamedEntries(a) && e in GrantUser(a, uid, perm) && !IsUser(e, uid)
    ensures !Named(e.tag)
  {
    if Named(e.tag) {
      NamedGranted(a, uid, perm, e);
    }
    hide Valid, GrantUser;
  }

  /** A grant names nobody else. */
  lemma NamedGranted(a: Entries, uid: u32, perm: u16, e: Entry)
    requires Valid(a) && e in GrantUser(a, uid, perm) && Named(e.tag)
    ensures e == Entry(USER, perm, uid) || exists f | f in a :: Named(f.tag) && !IsUser(f, uid)
  {
    hide GrantUser, Meet, Within, Valid, EffectiveMask;
    if e != Entry(USER, perm, uid) {
      var f := GrantedFrom(a, uid, perm, e);
      assert Named(f.tag);
    }
  }

  lemma GrantedEntry(a: Entries, uid: u32, perm: u16, e: Entry)
    requires Valid(a) && Within(perm, 7) && e in GrantUser(a, uid, perm)
    ensures ValidEntry(e)
  {
    GrantMembers(a, uid, perm);
    GrantIsTight(a, uid, perm);
    hide Meet, Within, Union, SetUser, Collapse, GrantUser, EffectiveMask, Tight;
    if e.tag != MASK && e != Entry(USER, perm, uid) {
      var f :| f in a && f.tag != MASK && !IsUser(f, uid) && e == CollapseEntry(f, EffectiveMask(a));
      CollapsedIsValid(f, EffectiveMask(a));
    }
  }

  lemma GrantedTag(a: Entries, uid: u32, perm: u16, tag: u16)
    requires Valid(a) && tag != MASK && HasTag(a, tag)
    ensures HasTag(GrantUser(a, uid, perm), tag)
  {
    GrantMembers(a, uid, perm);
    hide Meet, Within, Union, SetUser, Collapse, GrantUser, EffectiveMask;
    var e :| e in a && e.tag == tag;
    assert SetEntry(e, EffectiveMask(a), uid, perm) in GrantUser(a, uid, perm);
  }

  /** A granted list is valid and tight. */
  lemma GrantIsValid(a: Entries, uid: u32, perm: u16)
    requires Valid(a) && Within(perm, 7)
    ensures Valid(GrantUser(a, uid, perm)) && Tight(GrantUser(a, uid, perm))
  {
    hide Meet, Within, Union, SetUser, Collapse, GrantUser, EffectiveMask, Tight, ValidEntry, Distinct;
    GrantMembers(a, uid, perm);
    GrantIsTight(a, uid, perm);
    forall e | e in GrantUser(a, uid, perm) ensures ValidEntry(e) { GrantedEntry(a, uid, perm, e); }
    GrantedTag(a, uid, perm, USER_OBJ);
    GrantedTag(a, uid, perm, GROUP_OBJ);
    GrantedTag(a, uid, perm, OTHER);
  }

  lemma CollapsedIsValid(e: Entry, mask: u16)
    requires ValidEntry(e)
    ensures ValidEntry(CollapseEntry(e, mask))
  {
    hide Meet, Within;
    MeetIsLower(e.perm, mask);
    WithinTransitive(Meet(e.perm, mask), e.perm, 7);
  }

  lemma GrantedPerm(a: Entries, uid: u32, perm: u16, e: Entry)
    requires Valid(a) && Within(perm, 7) && e in SetUser(Collapse(a, EffectiveMask(a)), uid, perm)
    ensures Within(e.perm, 7)
  {
    SetUserMembers(a, EffectiveMask(a), uid, perm);
    hide Meet, Within, SetUser, Collapse, CollapseEntry;
    if e != Entry(USER, perm, uid) {
      var f :| f in a && !IsUser(f, uid) && e == CollapseEntry(f, EffectiveMask(a));
      CollapsedIsValid(f, EffectiveMask(a));
    }
  }

  /** A tight list gives every principal exactly its raw permissions. */
  lemma TightRights(a: Entries)
    requires Distinct(a) && Tight(a)
    ensures Rights(a) == RawRights(a)
  {
    hide Meet, Within;
    forall e | e in a && e.tag != MASK ensures Effective(e, EffectiveMask(a)) == e.perm {
      if GroupClass(e.tag) {
        MeetOfWithin(e.perm, EffectiveMask(a));
      }
    }
  }

  lemma RawFrom(a: Entries, k: Key) returns (e: Entry)
    requires Distinct(a) && k in RawRights(a)
    ensures e in a && e.tag != MASK && e.Key() == k && RawRights(a)[k] == e.perm
  {
    e :| e in a && e.tag != MASK && e.Key() == k;
  }

  lemma GrantedRight(a: Entries, uid: u32, perm: u16, k: Key)
    requires Valid(a) && Distinct(GrantUser(a, uid, perm)) && k in RawRights(GrantUser(a, uid, perm))
    ensures if k == (USER, uid) then RawRights(GrantUser(a, uid, perm))[k] == perm
            else k in Rights(a) && Rights(a)[k] == RawRights(GrantUser(a, uid, perm))[k]
  {
    hide Meet, Within, GrantUser, Union, Rights, RawRights, SetUser, Collapse, EffectiveMask, GroupClass, HasTag, Tight;
    var r := GrantUser(a, uid, perm);
    GrantMembers(a, uid, perm);
    var e := RawFrom(r, k);
    if k == (USER, uid) {
      SameKeySameEntry(r, e, Entry(USER, perm, uid));
    } else {
      var f :| f in a && f.tag != MASK && !IsUser(f, uid) && e == CollapseEntry(f, EffectiveMask(a));
      RightsOf(a, f);
    }
  }

  lemma KeptRight(a: Entries, uid: u32, perm: u16, k: Key)
    requires Valid(a) && Distinct(GrantUser(a, uid, perm)) && (k in Rights(a) || k == (USER, uid))
    ensures k in RawRights(GrantUser(a, uid, perm))
  {
    var r := GrantUser(a, uid, perm);
    GrantMembers(a, uid, perm);
    if k == (USER, uid) {
      SameRaw(r, Entry(USER, perm, uid));
    } else {
      var f := RightsFrom(a, k);
      hide Meet, Within, GrantUser, Union, Rights, RawRights;
      SameRaw(r, SetEntry(f, EffectiveMask(a), uid, perm));
    }
  }

  /** A grant sets the rights of the user and no others, whatever the mask was. */
  lemma GrantRights(a: Entries, uid: u32, perm: u16)
    requires Valid(a) && Within(perm, 7)
    ensures Valid(GrantUser(a, uid, perm)) && Tight(GrantUser(a, uid, perm))
    ensures Rights(GrantUser(a, uid, perm)) == Rights(a)[(USER, uid) := perm]
  {
    hide *;
    var r := GrantUser(a, uid, perm);
    ValidIsDistinct(a);
    var want := Rights(a)[(USER, uid) := perm];
    GrantIsValid(a, uid, perm);
    ValidIsDistinct(r);
    TightRights(r);
    forall k | k in RawRights(r) ensures k in want && want[k] == RawRights(r)[k] {
      GrantedRight(a, uid, perm, k);
    }
    forall k | k in want ensures k in RawRights(r) {
      KeptRight(a, uid, perm, k);
    }
  }

  lemma SameRaw(a: Entries, e: Entry)
    requires Distinct(a) && e in a && e.tag != MASK
    ensures e.Key() in RawRights(a) && RawRights(a)[e.Key()] == e.perm
  {
  }

  // Revoking.

  lemma {:induction false} KeepDistinct(a: Entries, test: Entry -> bool)
    requires Distinct(a)
    ensures Distinct(Keep(a, test))
  {
    if a != [] {
      var init, last := a[..|a| - 1], a[|a| - 1];
      KeepDistinct(init, test);
      var rest := Keep(init, test);
      forall i | 0 <= i < |rest| ensures rest[i].Key() != last.Key() {
        assert rest[i] in init;
      }
    }
  }

  /** After a revocation the user has no entry; the list is valid and tight, and every other principal
      has exactly its raw permissions. */
  lemma RevokeRights(a: Entries, uid: u32)
    requires Valid(a) && HasUser(a, uid)
    ensures var r := RevokeUser(a, uid).0;
            && RevokeUser(a, uid).1 && Valid(r) && Tight(r) && !HasUser(r, uid)
            && Rights(r) == RawRights(a) - {(USER, uid)}
  {
    var r := RevokeUser(a, uid).0;
    RevokeMembers(a, uid);
    RevokedIsValid(a, uid);
    TightRights(r);
    assert !HasUser(r, uid) by {
      forall e | e in r ensures !IsUser(e, uid) { assert e.tag == USER ==> e.tag != MASK; }
    }
    RevokedRaw(a, r, uid);
  }

  lemma RevokedRaw(a: Entries, r: Entries, uid: u32)
    requires Distinct(a) && Distinct(r) && forall e: Entry | e.tag != MASK :: e in r <==> e in a && !IsUser(e, uid)
    ensures RawRights(r) == RawRights(a) - {(USER, uid)}
  {
    hide Within, Meet, RawRights;
    var want := RawRights(a) - {(USER, uid)};
    forall k | k in RawRights(r) ensures k in want && want[k] == RawRights(r)[k] {
      var e := RawFrom(r, k);
      SameRaw(a, e);
    }
    forall k | k in want ensures k in RawRights(r) {
      var e := RawFrom(a, k);
      SameRaw(r, e);
    }
  }

  lemma RevokeMembers(a: Entries, uid: u32)
    requires Valid(a) && HasUser(a, uid)
    ensures var rest, r := WithoutUser(a, uid), RevokeUser(a, uid).0;
            && Distinct(rest) && Distinct(r)
            && (forall e: Entry | e.tag != MASK :: e in r <==> e in a && !IsUser(e, uid))
            && (if HasNamedEntries(rest) then forall e: Entry | e.tag == MASK :: e in r <==> e == Entry(MASK, Union(rest), UNDEFINED)
                else !HasTag(r, MASK))
  {
    hide Within, Meet, Union;
    var rest := WithoutUser(a, uid);
    KeepDistinct(a, (e: Entry) => !IsUser(e, uid));
    KeepDistinct(rest, (e: Entry) => e.tag != MASK);
    if HasNamedEntries(rest) {
      RecalculateMaskMembers(rest);
    }
  }

  lemma RevokedIsValid(a: Entries, uid: u32)
    requires Valid(a) && HasUser(a, uid)
    ensures Valid(RevokeUser(a, uid).0) && Tight(RevokeUser(a, uid).0)
  {
    var rest, r := WithoutUser(a, uid), RevokeUser(a, uid).0;
    RevokeMembers(a, uid);
    RestWithinSeven(a, uid);
    hide Within, Meet, RevokeUser, Union, Distinct, WithoutUser, Tight;
    forall tag | tag in {USER_OBJ, GROUP_OBJ, OTHER} ensures HasTag(r, tag) {
      var e :| e in a && e.tag == tag;
      assert e in r;
    }
    RevokedIsTight(a, uid);
    if HasNamedEntries(rest) {
      assert Entry(MASK, Union(rest), UNDEFINED) in r;
    }
  }

  lemma RestWithinSeven(a: Entries, uid: u32)
    requires Valid(a)
    ensures forall e | e in WithoutUser(a, uid) && GroupClass(e.tag) :: Within(e.perm, 7)
    ensures Within(Union(WithoutUser(a, uid)), 7)
  {
    hide Within, Union;
    forall e | e in WithoutUser(a, uid) && GroupClass(e.tag) ensures Within(e.perm, 7) {
      assert ValidEntry(e);
    }
    UnionIsLeast(WithoutUser(a, uid), 7);
  }

  lemma RevokedIsTight(a: Entries, uid: u32)
    requires Valid(a) && HasUser(a, uid)
    ensures Tight(RevokeUser(a, uid).0)
  {
    var rest, r := WithoutUser(a, uid), RevokeUser(a, uid).0;
    RevokeMembers(a, uid);
    RestWithinSeven(a, uid);
    RestMembers(a, uid);
    hide Within, Meet, RevokeUser, Union, Distinct, WithoutUser, Valid;
    if HasNamedEntries(rest) {
      var m := Entry(MASK, Union(rest), UNDEFINED);
      assert m in r;
      MaskEntry(r, m);
      forall e | e in r && GroupClass(e.tag) ensures Within(e.perm, EffectiveMask(r)) {
        UnionCovers(rest, e);
      }
    } else {
      NoMaskEntry(r);
    }
  }

  lemma RestMembers(a: Entries, uid: u32)
    ensures forall e :: e in WithoutUser(a, uid) <==> e in a && !IsUser(e, uid)
  {
  }

  // Both against the access check.

  /** Rights that differ at most in one named user decide the same for everybody else. */
  lemma OneUserApart(before: map<Key, u16>, after: map<Key, u16>, uid: u32, f: File, c: Credential, want: u16)
    requires forall k | k != (USER, uid) :: (k in before <==> k in after) && (k in before ==> before[k] == after[k])
    requires c.uid != uid || c.uid == f.owner
    ensures AllowsBy(before, f, c, want) <==> AllowsBy(after, f, c, want)
  {
    hide Within, GroupOf;
    SameSpeakers(before, after, uid, f, c);
    hide SpeaksFor;
    if k :| k in before && SpeaksFor(k, before, f, c) && Within(want, before[k]) {
      assert k in after && SpeaksFor(k, after, f, c);
    }
    if k :| k in after && SpeaksFor(k, after, f, c) && Within(want, after[k]) {
      assert k in before && SpeaksFor(k, before, f, c);
    }
  }

  lemma SameSpeakers(before: map<Key, u16>, after: map<Key, u16>, uid: u32, f: File, c: Credential)
    requires forall k | k != (USER, uid) :: (k in before <==> k in after)
    requires c.uid != uid || c.uid == f.owner
    ensures forall k | k in before || k in after :: SpeaksFor(k, before, f, c) <==> SpeaksFor(k, after, f, c)
    ensures forall k | SpeaksFor(k, before, f, c) :: k != (USER, uid)
  {
    hide GroupOf;
    assert forall g: Key | g.0 == GROUP :: g in before <==> g in after;
  }

  /** A grant gives the named user exactly the permissions asked for, and changes the decision for
      nobody else: not for owners, groups or others, nor for other named entries, however far the old
      mask reached.  The new list is valid and tight. */
  lemma GrantFrame(a: Entries, uid: u32, perm: u16, f: File, c: Credential, want: u16)
    requires Valid(a) && Within(perm, 7)
    ensures Valid(GrantUser(a, uid, perm)) && Tight(GrantUser(a, uid, perm))
    ensures Allows(GrantUser(a, uid, perm), f, c, want) <==>
            if c.uid == uid && uid != f.owner then Within(want, perm) else Allows(a, f, c, want)
  {
    hide *;
    var r := GrantUser(a, uid, perm);
    GrantRights(a, uid, perm);
    ValidIsDistinct(a);
    ValidIsDistinct(r);
    AllowsByRights(a, f, c, want);
    AllowsByRights(r, f, c, want);
    if c.uid == uid && uid != f.owner {
      NamedUserDecides(Rights(r), f, c, want);
    } else {
      OneUserApart(Rights(a), Rights(r), uid, f, c, want);
    }
  }

  lemma NamedUserDecides(rights: map<Key, u16>, f: File, c: Credential, want: u16)
    requires c.uid != f.owner && (USER, c.uid) in rights
    ensures AllowsBy(rights, f, c, want) <==> Within(want, rights[(USER, c.uid)])
  {
    hide Within, GroupOf;
    assert SpeaksFor((USER, c.uid), rights, f, c);
  }

  /** On a tight list a revocation takes the user's entry and changes nobody else's decision. */
  lemma RevokeFrame(a: Entries, uid: u32, f: File, c: Credential, want: u16)
    requires Valid(a) && Tight(a)
    ensures var r := RevokeUser(a, uid).0;
            && Valid(r) && Tight(r) && !HasUser(r, uid)
            && (c.uid != uid || c.uid == f.owner ==> (Allows(r, f, c, want) <==> Allows(a, f, c, want)))
  {
    var r := RevokeUser(a, uid).0;
    hide Within, Meet, Allows, AllowsBy, Rights, RawRights, Tight, Valid, RevokeUser;
    if HasUser(a, uid) {
      RevokeRights(a, uid);
      ValidIsDistinct(a);
      TightRights(a);
      AllowsByRights(a, f, c, want);
      AllowsByRights(r, f, c, want);
      if c.uid != uid || c.uid == f.owner {
        OneUserApart(Rights(a), Rights(r), uid, f, c, want);
      }
    } else {
      RevokeNobody(a, uid);
    }
  }

  lemma RevokeNobody(a: Entries, uid: u32)
    requires !HasUser(a, uid)
    ensures RevokeUser(a, uid) == (a, false)
  {
    KeepAll(a, (e: Entry) => !IsUser(e, uid));
  }

  /** Granting to a user that had no entry and revoking again changes no decision at all. */
  lemma GrantThenRevoke(a: Entries, uid: u32, perm: u16, f: File, c: Credential, want: u16)
    requires Valid(a) && Within(perm, 7) && !HasUser(a, uid)
    ensures var r := RevokeUser(GrantUser(a, uid, perm), uid).0;
            && Valid(r) && Tight(r) && !HasUser(r, uid) && Rights(r) == Rights(a)
            && (Allows(r, f, c, want) <==> Allows(a, f, c, want))
  {
    var g := GrantUser(a, uid, perm);
    var r := RevokeUser(g, uid).0;
    GrantedHasUser(a, uid, perm);
    hide *;
    GrantRights(a, uid, perm);
    ValidIsDistinct(a);
    ValidIsDistinct(g);
    RevokeRights(g, uid);
    TightRights(g);
    ValidIsDistinct(r);
    NoUserRight(a, uid);
    PutThenRemove(Rights(a), (USER, uid), perm);
    AllowsByRights(a, f, c, want);
    AllowsByRights(r, f, c, want);
  }

  lemma PutThenRemove(m: map<Key, u16>, k: Key, v: u16)
    requires k !in m
    ensures m[k := v] - {k} == m
  {
  }

  lemma GrantedHasUser(a: Entries, uid: u32, perm: u16)
    requires Valid(a)
    ensures HasUser(GrantUser(a, uid, perm), uid)
  {
    GrantMembers(a, uid, perm);
    hide GrantUser, Union, Within, Meet, Valid;
    assert IsUser(Entry(USER, perm, uid), uid);
  }

  // Revoking from a list that is not tight.

  /** Every other group-class entry is within the mask. */
  predicate TightWithout(a: Entries, uid: u32) {
    forall e | e in a && GroupClass(e.tag) && !IsUser(e, uid) :: Within(e.perm, EffectiveMask(a))
  }

  lemma TightWithoutRights(a: Entries, uid: u32)
    requires Valid(a) && TightWithout(a, uid)
    ensures forall k | k != (USER, uid) :: (k in Rights(a) <==> k in RawRights(a)) && (k in Rights(a) ==> Rights(a)[k] == RawRights(a)[k])
  {
    ValidIsDistinct(a);
    hide Within, Meet, Rights, RawRights, TightWithout, Valid, CollapseEntry;
    forall k | k != (USER, uid)
      ensures (k in Rights(a) <==> k in RawRights(a)) && (k in Rights(a) ==> Rights(a)[k] == RawRights(a)[k])
    {
      if k in Rights(a) {
        var e := RightsFrom(a, k);
        TightEntry(a, uid, e);
        SameRaw(a, e);
      }
      if k in RawRights(a) {
        var e := RawFrom(a, k);
        RightsOf(a, e);
      }
    }
  }

  lemma TightEntry(a: Entries, uid: u32, e: Entry)
    requires TightWithout(a, uid) && e in a && e.Key() != (USER, uid)
    ensures Effective(e, EffectiveMask(a)) == e.perm
  {
    hide Within, Meet;
    if GroupClass(e.tag) {
      MeetOfWithin(e.perm, EffectiveMask(a));
    }
  }

  /** If the list is tight apart from the user's own entry, nobody else's decision changes. */
  lemma RevokeKeepsOthers(a: Entries, uid: u32, f: File, c: Credential, want: u16)
    requires Valid(a) && HasUser(a, uid) && TightWithout(a, uid) && (c.uid != uid || c.uid == f.owner)
    ensures Allows(RevokeUser(a, uid).0, f, c, want) <==> Allows(a, f, c, want)
  {
    hide *;
    var r := RevokeUser(a, uid).0;
    RevokeRights(a, uid);
    ValidIsDistinct(a);
    ValidIsDistinct(r);
    TightWithoutRights(a, uid);
    AllowsByRights(a, f, c, want);
    AllowsByRights(r, f, c, want);
    OneUserApart(Rights(a), Rights(r), uid, f, c, want);
  }

  /** If it is not, somebody else's decision changes.  `stranger` is any identifier that the list does
      not mention; it stands for an ordinary user and group. */
  lemma RevokeWidensOther(a: Entries, uid: u32, e: Entry, stranger: u32) returns (f: File, c: Credential)
    requires Valid(a) && HasUser(a, uid)
    requires e in a && GroupClass(e.tag) && !IsUser(e, uid) && !Within(e.perm, EffectiveMask(a))
    requires stranger != uid && forall x | x in a :: x.id != stranger
    ensures c.uid != uid && !Allows(a, f, c, e.perm) && Allows(RevokeUser(a, uid).0, f, c, e.perm)
  {
    f, c := File(uid, stranger), Probe(e, stranger);
    assert ValidEntry(e);
    hide *;
    WithheldBefore(a, e, f, c, stranger);
    GrantedAfter(a, uid, e, f, c, stranger);
  }

  /** A process that an entry alone decides about, at a file of the stranger's group. */
  function Probe(e: Entry, stranger: u32): Credential {
    if e.tag == USER then Credential(e.id, {}) else Credential(stranger, if e.tag == GROUP then {e.id} else {stranger})
  }

  lemma WithheldBefore(a: Entries, e: Entry, f: File, c: Credential, stranger: u32)
    requires Valid(a) && e in a && GroupClass(e.tag) && !Within(e.perm, EffectiveMask(a))
    requires c == Probe(e, stranger) && f.group == stranger && f.owner != c.uid && forall x | x in a :: x.id != stranger
    ensures !Allows(a, f, c, e.perm)
  {
    assert ValidEntry(e);
    hide Within, Meet, Allows, EffectiveMask, AllowsBy, SpeaksFor, Probe;
    AllowsByRights(a, f, c, e.perm);
    RightsOf(a, e);
    EffectiveAllows(a, e, e.perm);
    KnownIds(a, stranger);
    DecidedBy(Rights(a), e, f, c, stranger);
  }

  lemma GrantedAfter(a: Entries, uid: u32, e: Entry, f: File, c: Credential, stranger: u32)
    requires Valid(a) && HasUser(a, uid) && e in a && GroupClass(e.tag) && !IsUser(e, uid)
    requires c == Probe(e, stranger) && f.group == stranger && f.owner != c.uid && forall x | x in a :: x.id != stranger
    ensures Allows(RevokeUser(a, uid).0, f, c, e.perm)
  {
    hide *;
    var r := RevokeUser(a, uid).0;
    EntryKey(a, uid, e);
    RevokeRights(a, uid);
    ValidIsDistinct(a);
    ValidIsDistinct(r);
    AllowsByRights(r, f, c, e.perm);
    SameRaw(a, e);
    KnownIds(a, stranger);
    DecidedBy(Rights(r), e, f, c, stranger);
    SelfWithin(e.perm);
  }

  lemma EntryKey(a: Entries, uid: u32, e: Entry)
    requires Valid(a) && e in a && GroupClass(e.tag) && !IsUser(e, uid)
    ensures e.Key() != (USER, uid) && e.tag != MASK && (e.tag == GROUP_OBJ ==> e.id == UNDEFINED)
  {
    hide Within;
    assert ValidEntry(e);
  }

  lemma KnownIds(a: Entries, stranger: u32)
    requires Distinct(a) && forall x | x in a :: x.id != stranger
    ensures forall k: Key | k in Rights(a) || k in RawRights(a) :: k.1 != stranger
  {
    hide Within, Meet;
  }

  /** At this file this process is decided by one entry alone. */
  lemma DecidedBy(rights: map<Key, u16>, e: Entry, f: File, c: Credential, stranger: u32)
    requires GroupClass(e.tag) && e.Key() in rights && f.owner != c.uid && f.group == stranger
    requires c == Probe(e, stranger)
    requires forall k: Key | k in rights :: k.1 != stranger
    requires e.tag == GROUP_OBJ ==> e.id == UNDEFINED
    ensures AllowsBy(rights, f, c, e.perm) <==> Within(e.perm, rights[e.Key()])
  {
    hide Within;
    OnlySpeaker(rights, e, f, c, stranger);
    hide SpeaksFor;
    if Within(e.perm, rights[e.Key()]) {
      assert SpeaksFor(e.Key(), rights, f, c);
    }
  }

  /** At this file this process speaks through one entry alone. */
  lemma OnlySpeaker(rights: map<Key, u16>, e: Entry, f: File, c: Credential, stranger: u32)
    requires GroupClass(e.tag) && e.Key() in rights && f.owner != c.uid && f.group == stranger
    requires c == Probe(e, stranger)
    requires forall k: Key | k in rights :: k.1 != stranger
    requires e.tag == GROUP_OBJ ==> e.id == UNDEFINED
    ensures forall k | k in rights :: SpeaksFor(k, rights, f, c) <==> k == e.Key()
  {
    assert e.tag == GROUP ==> GroupOf(e.Key(), f, c);
  }

  /** `revokeUser` computes the new mask from raw permissions, so on a list that is not tight it can
      hand out rights that the old mask withheld; here user 2000 gains write and execute access. */
  lemma RevokeCanWiden() returns (a: Entries, f: File, c: Credential)
    ensures a == NotTight() && Valid(a) && HasUser(a, 1001) && c.uid != 1001
    ensures !Allows(a, f, c, 7) && Allows(RevokeUser(a, 1001).0, f, c, 7)
  {
    a := NotTight();
    NotTightIsValid();
    assert a[2] in a;
    hide *;
    f, c := RevokeWidensOther(a, 1001, a[2], 3000);
  }

  /** Two users with all permissions, under a mask that leaves them reading. */
  function NotTight(): Entries {
    [Entry(USER_OBJ, 7, UNDEFINED), Entry(USER, 7, 1001), Entry(USER, 7, 2000),
     Entry(GROUP_OBJ, 7, UNDEFINED), Entry(MASK, 4, UNDEFINED), Entry(OTHER, 0, UNDEFINED)]
  }

  lemma NotTightIsValid()
    ensures Valid(NotTight()) && HasUser(NotTight(), 1001) && !Within(7, EffectiveMask(NotTight()))
    ensures GroupClass(NotTight()[2].tag) && !IsUser(NotTight()[2], 1001) && NotTight()[2].perm == 7
    ensures forall x | x in NotTight() :: x.id != 3000
  {
    var a := NotTight();
    assert a[0] in a && a[1] in a && a[2] in a && a[3] in a && a[4] in a && a[5] in a;
    NotTightDistinct();
    NotTightEntries();
    hide Within, EffectiveMask, Distinct, ValidEntry;
    MaskEntry(a, a[4]);
    NothingIsWithin(7);
    SevenIsNotWithinFour();
    assert IsUser(a[1], 1001);
  }

  lemma NotTightDistinct()
    ensures Distinct(NotTight())
  {
  }

  lemma NotTightEntries()
    ensures forall e | e in NotTight() :: ValidEntry(e)
    ensures forall e | e in NotTight() :: e.id != 3000 && (e.tag == MASK ==> e == NotTight()[4])
  {
    var a := NotTight();
    SmallIsWithinSeven(7);
    SmallIsWithinSeven(4);
    NothingIsWithin(7);
    hide Within;
    forall e | e in a ensures ValidEntry(e) && e.id != 3000 && (e.tag == MASK ==> e == a[4]) {
      var i :| 0 <= i < |a| && a[i] == e;
    }
  }

  lemma SevenIsNotWithinFour()
    ensures !Within(7, 4)
  {
  }

  /** Exactly when a revocation leaves everybody else alone: when every other group-class entry was
      within the mask before it. */
  lemma RevokeLeavesOthersAlone(a: Entries, uid: u32, stranger: u32)
    requires Valid(a) && HasUser(a, uid) && stranger != uid && forall x | x in a :: x.id != stranger
    ensures TightWithout(a, uid) <==>
            forall f, c: Credential, want | c.uid != uid :: Allows(RevokeUser(a, uid).0, f, c, want) <==> Allows(a, f, c, want)
  {
    if TightWithout(a, uid) {
      hide *;
      forall f, c: Credential, want | c.uid != uid
        ensures Allows(RevokeUser(a, uid).0, f, c, want) <==> Allows(a, f, c, want)
      {
        RevokeKeepsOthers(a, uid, f, c, want);
      }
    } else {
      var e :| e in a && GroupClass(e.tag) && !IsUser(e, uid) && !Within(e.perm, EffectiveMask(a));
      hide *;
      var f, c := RevokeWidensOther(a, uid, e, stranger);
    }
  }
}

/**
 What an access control list permits: the access check of section 23 of IEEE Std 1003.1e draft 17, as
 acl(5) describes it under "ACCESS CHECK ALGORITHM", and the effect of grants and revocations on it.
 */
module AclAccess {
  import opened Acl

  /** The owner and the group of a file. */
  datatype File = File(owner: u32, group: u32)

  /** A process: its effective user, and its effective and supplementary groups. */
  datatype Credential = Credential(uid: u32, groups: set<u32>)

  /** The entries of the file's groups and of named groups that a process matches. */
  predicate MatchesGroup(e: Entry, f: File, c: Credential) {
    (e.tag == GROUP_OBJ && f.group in c.groups) || (e.tag == GROUP && e.id in c.groups)
  }

  /** The access check, step by step as in acl(5). */
  predicate Allows(a: Entries, f: File, c: Credential, want: u16) {
    if c.uid == f.owner then
      exists e | e in a :: e.tag == USER_OBJ && Within(want, e.perm)
    else if HasUser(a, c.uid) then
      && (exists e | e in a :: IsUser(e, c.uid) && Within(want, e.perm))
      && (HasTag(a, MASK) ==> exists m | m in a :: m.tag == MASK && Within(want, m.perm))
    else if exists e | e in a :: MatchesGroup(e, f, c) then
      if HasTag(a, MASK) then
        && (exists m | m in a :: m.tag == MASK && Within(want, m.perm))
        && (exists e | e in a :: MatchesGroup(e, f, c) && Within(want, e.perm))
      else
        exists e | e in a :: e.tag == GROUP_OBJ && Within(want, e.perm)
    else
      exists e | e in a :: e.tag == OTHER && Within(want, e.perm)
  }

  /** What every principal of the list may do, by entry: its permissions within the mask. */
  ghost function Rights(a: Entries): map<Key, u16>
    requires Distinct(a)
  {
    map e | e in a && e.tag != MASK :: e.Key() := CollapseEntry(e, EffectiveMask(a)).perm
  }

  /** The same without regard to the mask. */
  ghost function RawRights(a: Entries): map<Key, u16>
    requires Distinct(a)
  {
    map e | e in a && e.tag != MASK :: e.Key() := e.perm
  }

  /** The principals of a process at a file: all their rights count. */
  ghost predicate SpeaksFor(k: Key, rights: map<Key, u16>, f: File, c: Credential) {
    if c.uid == f.owner then k == (USER_OBJ, UNDEFINED)
    else if (USER, c.uid) in rights then k == (USER, c.uid)
    else if GroupOf((GROUP_OBJ, UNDEFINED), f, c) || (exists g | g in rights :: g.0 == GROUP && GroupOf(g, f, c)) then
      (k == (GROUP_OBJ, UNDEFINED) || k.0 == GROUP) && GroupOf(k, f, c)
    else k == (OTHER, UNDEFINED)
  }

  predicate GroupOf(k: Key, f: File, c: Credential) {
    if k.0 == GROUP then k.1 in c.groups else f.group in c.groups
  }

  ghost predicate AllowsBy(rights: map<Key, u16>, f: File, c: Credential, want: u16) {
    exists k | k in rights :: SpeaksFor(k, rights, f, c) && Within(want, rights[k])
  }

  /** The part of an entry that the mask leaves. */
  function Effective(e: Entry, mask: u16): u16 {
    CollapseEntry(e, mask).perm
  }

  lemma RightsOf(a: Entries, e: Entry)
    requires Distinct(a) && e in a && e.tag != MASK
    ensures e.Key() in Rights(a) && Rights(a)[e.Key()] == Effective(e, EffectiveMask(a))
    ensures e.Key() in RawRights(a) && RawRights(a)[e.Key()] == e.perm
  {
    hide Meet;
  }

  lemma RightsFrom(a: Entries, k: Key) returns (e: Entry)
    requires Distinct(a) && k in Rights(a)
    ensures e in a && e.tag != MASK && e.Key() == k && Rights(a)[k] == Effective(e, EffectiveMask(a))
  {
    hide Meet;
    e :| e in a && e.tag != MASK && e.Key() == k;
  }

  /** The mask entry speaks through the effective mask. */
  lemma MaskAllows(a: Entries, want: u16)
    requires Valid(a) && HasTag(a, MASK)
    ensures (exists m | m in a :: m.tag == MASK && Within(want, m.perm)) <==> Within(want, EffectiveMask(a))
  {
    hide Within;
    MaskOf(a);
    var m :| m in a && m.tag == MASK;
  }

  lemma EffectiveAllows(a: Entries, e: Entry, want: u16)
    requires Valid(a) && e in a && GroupClass(e.tag)
    ensures Within(want, Effective(e, EffectiveMask(a))) <==> Within(want, e.perm) && Within(want, EffectiveMask(a))
    ensures !HasTag(a, MASK) ==> (Within(want, Effective(e, EffectiveMask(a))) <==> Within(want, e.perm))
  {
    hide Within, Meet;
    WithinMeet(want, e.perm, EffectiveMask(a));
    if !HasTag(a, MASK) {
      MaskOf(a);
      if Within(want, e.perm) {
        WithinTransitive(want, e.perm, 7);
      }
    }
  }

  lemma OwnerByRights(a: Entries, f: File, c: Credential, want: u16)
    requires Valid(a) && c.uid == f.owner
    ensures Allows(a, f, c, want) <==> AllowsBy(Rights(a), f, c, want)
  {
    hide Within, Meet, Rights;
    var owner :| owner in a && owner.tag == USER_OBJ;
    RightsOf(a, owner);
    forall e | e in a && e.tag == USER_OBJ ensures e == owner { SameKeySameEntry(a, e, owner); }
    assert SpeaksFor((USER_OBJ, UNDEFINED), Rights(a), f, c);
  }

  lemma UserByRights(a: Entries, f: File, c: Credential, want: u16)
    requires Valid(a) && c.uid != f.owner && HasUser(a, c.uid)
    ensures Allows(a, f, c, want) <==> AllowsBy(Rights(a), f, c, want)
  {
    hide Within, Meet, Rights;
    var user :| user in a && IsUser(user, c.uid);
    RightsOf(a, user);
    assert Named(user.tag);
    MaskAllows(a, want);
    EffectiveAllows(a, user, want);
    forall e | e in a && IsUser(e, c.uid) ensures e == user { SameKeySameEntry(a, e, user); }
    assert SpeaksFor((USER, c.uid), Rights(a), f, c);
  }

  lemma NoUserRight(a: Entries, uid: u32)
    requires Distinct(a) && !HasUser(a, uid)
    ensures (USER, uid) !in Rights(a)
  {
    hide Meet;
  }

  /** The entries that speak for a process of the group class. */
  lemma GroupSpeaks(a: Entries, f: File, c: Credential)
    requires Valid(a) && c.uid != f.owner && !HasUser(a, c.uid)
    ensures forall e | e in a && MatchesGroup(e, f, c) :: SpeaksFor(e.Key(), Rights(a), f, c)
    ensures (exists e | e in a :: MatchesGroup(e, f, c)) ==>
              forall e | e in a && e.tag != MASK && SpeaksFor(e.Key(), Rights(a), f, c) :: MatchesGroup(e, f, c)
    ensures !(exists e | e in a :: MatchesGroup(e, f, c)) ==>
              forall k | k in Rights(a) :: SpeaksFor(k, Rights(a), f, c) <==> k == (OTHER, UNDEFINED)
  {
    hide Meet, Within, Rights;
    NoUserRight(a, c.uid);
    var g :| g in a && g.tag == GROUP_OBJ;
    forall e | e in a && MatchesGroup(e, f, c) ensures SpeaksFor(e.Key(), Rights(a), f, c) {
      RightsOf(a, e);
      assert e.tag == GROUP ==> GroupOf(e.Key(), f, c);
    }
    if !(exists e | e in a :: MatchesGroup(e, f, c)) {
      assert !MatchesGroup(g, f, c);
      forall k | k in Rights(a) ensures SpeaksFor(k, Rights(a), f, c) <==> k == (OTHER, UNDEFINED) {
        forall q | q in Rights(a) && q.0 == GROUP ensures !GroupOf(q, f, c) {
          var e := RightsFrom(a, q);
          assert !MatchesGroup(e, f, c);
        }
      }
    }
  }

  lemma GroupAllows(a: Entries, f: File, c: Credential, want: u16)
    requires Valid(a) && c.uid != f.owner && !HasUser(a, c.uid)
    requires exists e | e in a :: MatchesGroup(e, f, c)
    ensures Allows(a, f, c, want) <==>
            exists e | e in a :: MatchesGroup(e, f, c) && Within(want, e.perm) && (HasTag(a, MASK) ==> Within(want, EffectiveMask(a)))
  {
    hide Within;
    if HasTag(a, MASK) {
      MaskAllows(a, want);
    } else {
      var match_ :| match_ in a && MatchesGroup(match_, f, c);
      assert !Named(match_.tag);
      assert f.group in c.groups;
    }
  }

  lemma GroupMember(a: Entries, e: Entry, f: File, c: Credential, want: u16)
    requires Valid(a) && e in a && MatchesGroup(e, f, c)
    ensures e.tag != MASK && e.Key() in Rights(a)
    ensures Within(want, Rights(a)[e.Key()]) <==> Within(want, e.perm) && (HasTag(a, MASK) ==> Within(want, EffectiveMask(a)))
  {
    RightsOf(a, e);
    EffectiveAllows(a, e, want);
  }

  lemma GroupByRights(a: Entries, f: File, c: Credential, want: u16)
    requires Valid(a) && c.uid != f.owner && !HasUser(a, c.uid)
    requires exists e | e in a :: MatchesGroup(e, f, c)
    ensures Allows(a, f, c, want) <==> AllowsBy(Rights(a), f, c, want)
  {
    GroupSpeaks(a, f, c);
    GroupAllows(a, f, c, want);
    hide *;
    if Allows(a, f, c, want) {
      var e :| e in a && MatchesGroup(e, f, c) && Within(want, e.perm) && (HasTag(a, MASK) ==> Within(want, EffectiveMask(a)));
      GroupMember(a, e, f, c, want);
      SomeoneAllows(Rights(a), e.Key(), f, c, want);
    }
    if AllowsBy(Rights(a), f, c, want) {
      var k := WhoAllows(Rights(a), f, c, want);
      ValidIsDistinct(a);
      var e := RightsFrom(a, k);
      GroupMember(a, e, f, c, want);
    }
  }

  lemma ValidIsDistinct(a: Entries)
    requires Valid(a)
    ensures Distinct(a)
  {
  }

  lemma SomeoneAllows(rights: map<Key, u16>, k: Key, f: File, c: Credential, want: u16)
    requires k in rights && SpeaksFor(k, rights, f, c) && Within(want, rights[k])
    ensures AllowsBy(rights, f, c, want)
  {
  }

  lemma WhoAllows(rights: map<Key, u16>, f: File, c: Credential, want: u16) returns (k: Key)
    requires AllowsBy(rights, f, c, want)
    ensures k in rights && SpeaksFor(k, rights, f, c) && Within(want, rights[k])
  {
    k :| k in rights && SpeaksFor(k, rights, f, c) && Within(want, rights[k]);
  }

  lemma OtherAllows(a: Entries, f: File, c: Credential, want: u16) returns (other: Entry)
    requires Valid(a) && c.uid != f.owner && !HasUser(a, c.uid)
    requires !(exists e | e in a :: MatchesGroup(e, f, c))
    ensures other in a && other.tag == OTHER && other.Key() == (OTHER, UNDEFINED)
    ensures Allows(a, f, c, want) <==> Within(want, other.perm)
    ensures other.Key() in Rights(a) && Rights(a)[other.Key()] == other.perm
  {
    hide Within, Rights;
    other :| other in a && other.tag == OTHER;
    forall e | e in a && e.tag == OTHER ensures e == other { SameKeySameEntry(a, e, other); }
    RightsOf(a, other);
  }

  lemma OtherByRights(a: Entries, f: File, c: Credential, want: u16)
    requires Valid(a) && c.uid != f.owner && !HasUser(a, c.uid)
    requires !(exists e | e in a :: MatchesGroup(e, f, c))
    ensures Allows(a, f, c, want) <==> AllowsBy(Rights(a), f, c, want)
  {
    GroupSpeaks(a, f, c);
    var other := OtherAllows(a, f, c, want);
    hide *;
    if Allows(a, f, c, want) {
      SomeoneAllows(Rights(a), other.Key(), f, c, want);
    }
    if AllowsBy(Rights(a), f, c, want) {
      var k := WhoAllows(Rights(a), f, c, want);
    }
  }

  /** The access check depends on nothing but the rights of the principals. */
  lemma AllowsByRights(a: Entries, f: File, c: Credential, want: u16)
    requires Valid(a)
    ensures Allows(a, f, c, want) <==> AllowsBy(Rights(a), f, c, want)
  {
    hide Allows, AllowsBy;
    if c.uid == f.owner {
      OwnerByRights(a, f, c, want);
    } else if HasUser(a, c.uid) {
      UserByRights(a, f, c, want);
    } else if exists e | e in a :: MatchesGroup(e, f, c) {
      GroupByRights(a, f, c, want);
    } else {
      OtherByRights(a, f, c, want);
    }
  }
}

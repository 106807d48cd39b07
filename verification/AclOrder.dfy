/**
 Lists with the same entries are the same list, however they are ordered; so grants to different users
 commute down to the bytes.
 */
module AclOrder {
  import opened Wrappers
  import opened Acl
  import opened AclAccess
  import opened AclEdits
  import opened AclCodec

  ghost predicate SameEntries(a: Entries, b: Entries) {
    Distinct(a) && Distinct(b) && forall e :: e in a <==> e in b
  }

  lemma SameEntriesSameMask(a: Entries, b: Entries)
    requires Valid(a) && SameEntries(a, b)
    ensures EffectiveMask(a) == EffectiveMask(b)
  {
    if HasTag(a, MASK) {
      var m :| m in a && m.tag == MASK;
      forall f | f in a && f.tag == MASK ensures f == m { SameKeySameEntry(a, f, m); }
      MaskEntry(a, m);
      MaskEntry(b, m);
    } else {
      NoMaskEntry(a);
      NoMaskEntry(b);
    }
  }

  /** The order of the entries matters to nothing. */
  lemma SameEntriesSameAccess(a: Entries, b: Entries)
    requires Valid(a) && SameEntries(a, b)
    ensures Valid(b) && Rights(a) == Rights(b) && (Tight(a) <==> Tight(b))
    ensures forall uid :: HasUser(a, uid) <==> HasUser(b, uid)
  {
    SameEntriesSameMask(a, b);
    hide Within, Meet, EffectiveMask;
    assert HasNamedEntries(a) <==> HasNamedEntries(b);
    assert forall tag :: HasTag(a, tag) <==> HasTag(b, tag);
  }

  lemma SortedSameEntries(a: Entries)
    requires Distinct(a)
    ensures SameEntries(a, Sorted(a))
  {
    SortedIsDistinct(a);
    SortedInOrder(a);
  }

  /** Tight lists with the same rights have the same entries, once their masks are the unions of their
      group classes. */
  lemma SameRightsSameEntries(a: Entries, b: Entries)
    requires Valid(a) && Valid(b) && RawRights(a) == RawRights(b)
    requires Entry(MASK, Union(a), UNDEFINED) in a && Entry(MASK, Union(b), UNDEFINED) in b
    ensures SameEntries(a, b)
  {
    hide Within, Union, Valid, RawRights, HasTag, ValidEntry;
    ValidIsDistinct(a);
    ValidIsDistinct(b);
    forall e: Entry | e.tag != MASK ensures e in a <==> e in b {
      RawEntry(a, e);
      RawEntry(b, e);
    }
    SameUnion(a, b);
    OneMaskEntry(a);
    OneMaskEntry(b);
    hide Distinct;
  }

  lemma OneMaskEntry(a: Entries)
    requires Valid(a) && Entry(MASK, Union(a), UNDEFINED) in a
    ensures forall e: Entry | e.tag == MASK :: e in a <==> e == Entry(MASK, Union(a), UNDEFINED)
  {
    hide Within, Union;
    forall e: Entry | e.tag == MASK && e in a ensures e == Entry(MASK, Union(a), UNDEFINED) {
      assert ValidEntry(e);
      SameKeySameEntry(a, e, Entry(MASK, Union(a), UNDEFINED));
    }
  }

  lemma RawEntry(a: Entries, e: Entry)
    requires Distinct(a) && e.tag != MASK
    ensures e in a <==> e.Key() in RawRights(a) && RawRights(a)[e.Key()] == e.perm
  {
    if e in a {
      SameRaw(a, e);
    }
    if e.Key() in RawRights(a) && RawRights(a)[e.Key()] == e.perm {
      var f := RawFrom(a, e.Key());
      assert f == e;
    }
  }

  /** The mask entry of a granted list is the union of the list itself. */
  lemma GrantedMask(a: Entries, uid: u32, perm: u16)
    requires Valid(a) && Within(perm, 7)
    ensures var r := GrantUser(a, uid, perm); Entry(MASK, Union(r), UNDEFINED) in r
  {
    var c := SetUser(Collapse(a, EffectiveMask(a)), uid, perm);
    var r := GrantUser(a, uid, perm);
    GrantIsTight(a, uid, perm);
    GrantMembers(a, uid, perm);
    GrantRaw(a, uid, perm);
    hide Within, Union, SetUser, Collapse, GrantUser, EffectiveMask;
    SameUnion(c, r);
  }

  /** Outside the mask, recalculating it changes no member. */
  lemma GrantRaw(a: Entries, uid: u32, perm: u16)
    requires Valid(a)
    ensures var c := SetUser(Collapse(a, EffectiveMask(a)), uid, perm);
            forall e | e in c && GroupClass(e.tag) :: e in GrantUser(a, uid, perm)
  {
    var c := SetUser(Collapse(a, EffectiveMask(a)), uid, perm);
    SetUserDistinct(a, EffectiveMask(a), uid, perm);
    SetUserMembers(a, EffectiveMask(a), uid, perm);
    hide SetUser, Collapse, Union, Meet, Within;
    forall e | e in c && e.tag == MASK ensures e.id == UNDEFINED {
      var f :| f in a && !IsUser(f, uid) && e == CollapseEntry(f, EffectiveMask(a));
      assert ValidEntry(f);
    }
    RecalculateMaskMembers(c);
  }

  /** On a valid list, grants to different users are written to the same bytes in either order. */
  lemma GrantsCommute(a: Entries, u: u32, p: u16, v: u32, q: u16)
    requires Valid(a) && Within(p, 7) && Within(q, 7) && u != v
    ensures Encode(GrantUser(GrantUser(a, u, p), v, q)) == Encode(GrantUser(GrantUser(a, v, q), u, p))
  {
    hide *;
    var au, av := GrantUser(a, u, p), GrantUser(a, v, q);
    var x, y := GrantUser(au, v, q), GrantUser(av, u, p);
    ValidIsDistinct(a);
    GrantRights(a, u, p);
    GrantRights(a, v, q);
    ValidIsDistinct(au);
    ValidIsDistinct(av);
    GrantRights(au, v, q);
    GrantRights(av, u, p);
    ValidIsDistinct(x);
    ValidIsDistinct(y);
    TightRights(x);
    TightRights(y);
    UpdatesCommute(Rights(a), (USER, u), p, (USER, v), q);
    GrantedMask(au, v, q);
    GrantedMask(av, u, p);
    SameRightsSameEntries(x, y);
    SameBytes(x, y);
  }

  lemma SameBytes(a: Entries, b: Entries)
    requires SameEntries(a, b)
    ensures Encode(a) == Encode(b)
  {
    SameMembersSameOrder(a, b);
  }

  lemma UpdatesCommute(m: map<Key, u16>, j: Key, x: u16, k: Key, y: u16)
    requires j != k
    ensures m[j := x][k := y] == m[k := y][j := x]
  {
  }
}

/**
 Lists without named entries: mode bits turned into a list decide as the mode bits do, and the base of a
 list decides as its owner, owning group and other entries do.
 */
module AclMode {
  import opened Wrappers
  import opened Acl
  import opened AclAccess

  // What the permission bits mean: 4 reads, 2 writes, 1 executes.

  /** `Within` compares the three bits one by one. */
  lemma WithinIsBitwise(part: u16, whole: u16)
    requires part < 8 && whole < 8
    ensures Within(part, whole) <==> part % 2 <= whole % 2 && (part / 2) % 2 <= (whole / 2) % 2 && part / 4 <= whole / 4
  {
    WithinByBits(part, whole);
    WithinByBits(part / 2, whole / 2);
    WithinByBits(part / 4, whole / 4);
    NothingIsWithin(whole / 8);
  }

  /** Within seven is whatever fits in three bits. */
  lemma WithinSeven(perm: u16)
    ensures Within(perm, 7) <==> perm < 8
  {
    hide Within;
    WithinByBits(perm, 7);
    WithinByBits(perm / 2, 3);
    WithinByBits(perm / 4, 1);
    NothingLarger(perm / 8);
  }

  lemma NothingLarger(perm: u16)
    ensures Within(perm, 0) <==> perm == 0
  {
    NothingIsWithin(perm);
    if Within(perm, 0) {
      WithinAntisymmetric(perm, 0);
    }
  }

  /** The permission bits of a mode that apply to a process. */
  function ModeClass(mode: u32, f: File, c: Credential): u16 {
    if c.uid == f.owner then (mode / 64) % 8 else if f.group in c.groups then (mode / 8) % 8 else mode % 8
  }

  /** A file without a list permits what its mode bits say: the owner's bits to the owner, the group's to the
      group, the others' to everybody else. */
  lemma ModeDecides(mode: u32, f: File, c: Credential, want: u16)
    ensures Allows(BaseACL(mode), f, c, want) <==> Within(want, ModeClass(mode, f, c))
  {
    hide Allows, Within;
    var owner, group, others := (mode / 64) % 8, (mode / 8) % 8, mode % 8;
    assert BaseACL(mode) == [Entry(USER_OBJ, owner, UNDEFINED), Entry(GROUP_OBJ, group, UNDEFINED), Entry(OTHER, others, UNDEFINED)];
    ThreeEntries(owner, group, others, f, c, want);
  }

  lemma ThreeEntries(owner: u16, group: u16, others: u16, f: File, c: Credential, want: u16)
    ensures Allows([Entry(USER_OBJ, owner, UNDEFINED), Entry(GROUP_OBJ, group, UNDEFINED), Entry(OTHER, others, UNDEFINED)], f, c, want) <==>
            Within(want, if c.uid == f.owner then owner else if f.group in c.groups then group else others)
  {
    hide Within;
    var a := [Entry(USER_OBJ, owner, UNDEFINED), Entry(GROUP_OBJ, group, UNDEFINED), Entry(OTHER, others, UNDEFINED)];
    assert a[0] in a && a[1] in a && a[2] in a;
    assert forall e | e in a :: e == a[0] || e == a[1] || e == a[2];
    assert !HasUser(a, c.uid) && !HasTag(a, MASK);
    if c.uid != f.owner {
      assert f.group in c.groups <==> MatchesGroup(a[1], f, c);
      assert !MatchesGroup(a[0], f, c) && !MatchesGroup(a[2], f, c);
    }
  }

  /** The tag of the unnamed entry that applies to a process. */
  function ClassTag(f: File, c: Credential): u16 {
    if c.uid == f.owner then 0x01 else if f.group in c.groups then 0x04 else 0x20
  }

  /** The base of a list permits to a process what the list's unnamed entry for its class says. */
  lemma BaseDecides(a: Entries, f: File, c: Credential, want: u16)
    requires Valid(a)
    ensures Allows(Base(a), f, c, want) <==> exists e | e in a :: e.tag == ClassTag(f, c) && Within(want, e.perm)
  {
    var b := Base(a);
    BaseMembers(a);
    hide Within, Base, ValidEntry, Distinct;
    assert !HasUser(b, c.uid) && !HasTag(b, MASK);
    if c.uid != f.owner && f.group in c.groups {
      var g :| g in a && g.tag == GROUP_OBJ;
      assert MatchesGroup(g, f, c);
    } else {
      assert c.uid == f.owner || forall e | e in b :: !MatchesGroup(e, f, c);
    }
  }

  lemma BaseMembers(a: Entries)
    ensures forall e :: e in Base(a) <==> e in a && (e.tag == USER_OBJ || e.tag == GROUP_OBJ || e.tag == OTHER)
  {
  }
}

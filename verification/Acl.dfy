/**
 POSIX access control lists as internal/homeaccess/acl.go edits them: a list of entries in which the
 owning group and every named entry share one mask.
 */
module Acl {
  import opened Wrappers

  type u8 = x: int | 0 <= x < 0x100
  type u16 = x: int | 0 <= x < 0x1_0000
  type u32 = x: int | 0 <= x < 0x1_0000_0000

  const VERSION: u32 := 2
  const USER_OBJ: u16 := 0x01
  const USER: u16 := 0x02
  const GROUP_OBJ: u16 := 0x04
  const GROUP: u16 := 0x08
  const MASK: u16 := 0x10
  const OTHER: u16 := 0x20
  const UNDEFINED: u32 := 0xffff_ffff

  type Key = (u16, u32)

  datatype Entry = Entry(tag: u16, perm: u16, id: u32) {
    function Key(): Key {
      (tag, id)
    }
  }

  type Entries = seq<Entry>

  predicate GroupClass(tag: u16) {
    tag == GROUP_OBJ || tag == USER || tag == GROUP
  }

  predicate Named(tag: u16) {
    tag == USER || tag == GROUP
  }

  predicate IsUser(e: Entry, uid: u32) {
    e.tag == USER && e.id == uid
  }

  // Permissions are sets of bits.  Bitwise `and` and `or` are written out bit by bit; everything
  // about lists uses only their laws.

  function Meet(x: u16, y: u16): (r: u16)
    ensures r <= x
  {
    if x == 0 then 0 else 2 * Meet(x / 2, y / 2) + (if x % 2 == 1 && y % 2 == 1 then 1 else 0)
  }

  function Pow2(bits: nat): nat {
    if bits == 0 then 1 else 2 * Pow2(bits - 1)
  }

  function JoinBits(bits: nat, x: nat, y: nat): (r: nat)
    requires x < Pow2(bits) && y < Pow2(bits)
    ensures r < Pow2(bits)
  {
    if bits == 0 then 0
    else 2 * JoinBits(bits - 1, x / 2, y / 2) + (if x % 2 == 1 || y % 2 == 1 then 1 else 0)
  }

  function Join(x: u16, y: u16): u16 {
    assert Pow2(4) == 0x10 && Pow2(8) == 0x100 && Pow2(12) == 0x1000;
    JoinBits(16, x, y)
  }

  /** All of `part` is in `whole`. */
  predicate Within(part: u16, whole: u16) {
    Meet(part, whole) == part
  }

  lemma {:induction false} WithinByBits(x: u16, y: u16)
    ensures Within(x, y) <==> Within(x / 2, y / 2) && x % 2 <= y % 2
  {
  }

  lemma {:induction false} MeetByBits(x: u16, y: u16)
    ensures Meet(x, y) / 2 == Meet(x / 2, y / 2)
    ensures Meet(x, y) % 2 == if x % 2 == 1 && y % 2 == 1 then 1 else 0
  {
  }

  lemma {:induction false} MeetIsLower(x: u16, y: u16)
    ensures Within(Meet(x, y), x) && Within(Meet(x, y), y)
  {
    if x != 0 {
      MeetIsLower(x / 2, y / 2);
      MeetByBits(x, y);
      WithinByBits(Meet(x, y), x);
      WithinByBits(Meet(x, y), y);
    }
  }

  lemma {:induction false} WithinMeet(x: u16, y: u16, z: u16)
    ensures Within(x, Meet(y, z)) <==> Within(x, y) && Within(x, z)
  {
    hide Meet, Within;
    NothingIsWithin(y);
    NothingIsWithin(z);
    NothingIsWithin(Meet(y, z));
    if x != 0 {
      WithinMeet(x / 2, y / 2, z / 2);
      WithinByBits(x, y);
      WithinByBits(x, z);
      WithinByBits(x, Meet(y, z));
      MeetByBits(y, z);
    }
  }

  lemma MeetOfWithin(x: u16, y: u16)
    requires Within(x, y)
    ensures Meet(x, y) == x
  {
  }

  lemma {:induction false} JoinIsUpper(bits: nat, x: nat, y: nat)
    requires x < Pow2(bits) <= 0x1_0000 && y < Pow2(bits)
    ensures Within(x, JoinBits(bits, x, y)) && Within(y, JoinBits(bits, x, y))
  {
    if bits > 0 {
      JoinIsUpper(bits - 1, x / 2, y / 2);
      WithinByBits(x, JoinBits(bits, x, y));
      WithinByBits(y, JoinBits(bits, x, y));
    }
  }

  lemma {:induction false} JoinIsLeast(bits: nat, x: nat, y: nat, z: u16)
    requires x < Pow2(bits) <= 0x1_0000 && y < Pow2(bits) && Within(x, z) && Within(y, z)
    ensures Within(JoinBits(bits, x, y), z)
  {
    if bits > 0 {
      WithinByBits(x, z);
      WithinByBits(y, z);
      JoinIsLeast(bits - 1, x / 2, y / 2, z / 2);
      WithinByBits(JoinBits(bits, x, y), z);
    }
  }

  lemma {:induction false} WithinTransitive(x: u16, y: u16, z: u16)
    requires Within(x, y) && Within(y, z)
    ensures Within(x, z)
  {
    if x != 0 {
      WithinByBits(x, y);
      WithinByBits(y, z);
      WithinTransitive(x / 2, y / 2, z / 2);
      WithinByBits(x, z);
    }
  }

  lemma {:induction false} WithinAntisymmetric(x: u16, y: u16)
    requires Within(x, y) && Within(y, x)
    ensures x == y
  {
    if x + y > 0 {
      WithinByBits(x, y);
      WithinByBits(y, x);
      WithinAntisymmetric(x / 2, y / 2);
    }
  }

  lemma NothingIsWithin(x: u16)
    ensures Within(0, x)
  {
  }

  lemma {:induction false} SelfWithin(x: u16)
    ensures Within(x, x)
  {
    if x != 0 {
      SelfWithin(x / 2);
      WithinByBits(x, x);
    }
  }

  lemma SmallIsWithinSeven(x: u16)
    requires x <= 7
    ensures Within(x, 7)
  {
    WithinByBits(x, 7);
    WithinByBits(x / 2, 3);
    WithinByBits(x / 4, 1);
  }

  lemma JoinUpper(x: u16, y: u16)
    ensures Within(x, Join(x, y)) && Within(y, Join(x, y))
  {
    assert Pow2(4) == 0x10 && Pow2(8) == 0x100 && Pow2(12) == 0x1000;
    JoinIsUpper(16, x, y);
  }

  lemma JoinLeast(x: u16, y: u16, z: u16)
    requires Within(x, z) && Within(y, z)
    ensures Within(Join(x, y), z)
  {
    assert Pow2(4) == 0x10 && Pow2(8) == 0x100 && Pow2(12) == 0x1000;
    JoinIsLeast(16, x, y, z);
  }

  // What the code computes, on lists of entries.

  /** The first mask entry, or all permissions. */
  function EffectiveMask(a: Entries): u16 {
    if a == [] then 7 else if a[0].tag == MASK then a[0].perm else EffectiveMask(a[1..])
  }

  predicate HasNamedEntries(a: Entries) {
    exists e | e in a :: Named(e.tag)
  }

  /** The raw permissions of the first entry of a user. */
  function UserPerm(a: Entries, uid: u32): Option<u16> {
    if a == [] then None else if IsUser(a[0], uid) then Some(a[0].perm) else UserPerm(a[1..], uid)
  }

  predicate UserHas(a: Entries, uid: u32, wanted: u16) {
    var perm := UserPerm(a, uid);
    perm.Some? && Within(wanted, Meet(perm.value, EffectiveMask(a)))
  }

  function BaseACL(mode: u32): Entries {
    [Entry(USER_OBJ, (mode / 64) % 8, UNDEFINED),
     Entry(GROUP_OBJ, (mode / 8) % 8, UNDEFINED),
     Entry(OTHER, mode % 8, UNDEFINED)]
  }

  /** The entries that pass a test, in order. */
  function Keep(a: Entries, test: Entry -> bool): (r: Entries)
    ensures forall e :: e in r <==> e in a && test(e)
    ensures |r| <= |a|
  {
    if a == [] then []
    else
      var last := a[|a| - 1];
      var rest := Keep(a[..|a| - 1], test);
      assert a == a[..|a| - 1] + [last];
      if test(last) then rest + [last] else rest
  }

  function Base(a: Entries): Entries {
    Keep(a, (e: Entry) => e.tag == USER_OBJ || e.tag == GROUP_OBJ || e.tag == OTHER)
  }

  function WithoutUser(a: Entries, uid: u32): Entries {
    Keep(a, (e: Entry) => !IsUser(e, uid))
  }

  function WithoutMask(a: Entries): Entries {
    Keep(a, (e: Entry) => e.tag != MASK)
  }

  function CollapseEntry(e: Entry, mask: u16): Entry {
    if GroupClass(e.tag) then e.(perm := Meet(e.perm, mask)) else e
  }

  function Collapse(a: Entries, mask: u16): Entries {
    seq(|a|, i requires 0 <= i < |a| => CollapseEntry(a[i], mask))
  }

  predicate HasUser(a: Entries, uid: u32) {
    exists e | e in a :: IsUser(e, uid)
  }

  function SetUser(a: Entries, uid: u32, perm: u16): Entries {
    var set_ := seq(|a|, i requires 0 <= i < |a| => if IsUser(a[i], uid) then a[i].(perm := perm) else a[i]);
    if HasUser(a, uid) then set_ else set_ + [Entry(USER, perm, uid)]
  }

  /** Everything some group-class entry permits. */
  function Union(a: Entries): u16 {
    if a == [] then 0
    else
      var last := a[|a| - 1];
      if GroupClass(last.tag) then Join(Union(a[..|a| - 1]), last.perm) else Union(a[..|a| - 1])
  }

  /** The position of the last mask entry, -1 if there is none. */
  function LastMask(a: Entries): (i: int)
    ensures -1 <= i < |a|
    ensures i >= 0 ==> a[i].tag == MASK
    ensures forall j | i < j < |a| :: a[j].tag != MASK
  {
    if a == [] then -1 else if a[|a| - 1].tag == MASK then |a| - 1 else LastMask(a[..|a| - 1])
  }

  function RecalculateMask(a: Entries): Entries {
    var i := LastMask(a);
    if i >= 0 then a[i := a[i].(perm := Union(a))] else a + [Entry(MASK, Union(a), UNDEFINED)]
  }

  function GrantUser(a: Entries, uid: u32, perm: u16): Entries {
    RecalculateMask(SetUser(Collapse(a, EffectiveMask(a)), uid, perm))
  }

  /** The list without the user's entries, and whether there were any. */
  function RevokeUser(a: Entries, uid: u32): (Entries, bool) {
    var rest := WithoutUser(a, uid);
    if !HasUser(a, uid) then (a, false)
    else if HasNamedEntries(rest) then (RecalculateMask(rest), true)
    else (WithoutMask(rest), true)
  }

  lemma {:induction false} KeepAll(a: Entries, test: Entry -> bool)
    requires forall e | e in a :: test(e)
    ensures Keep(a, test) == a
  {
    if a != [] {
      KeepAll(a[..|a| - 1], test);
      assert a == a[..|a| - 1] + [a[|a| - 1]];
    }
  }

  // Valid lists, as acl(5) defines them.

  predicate ValidEntry(e: Entry) {
    && Within(e.perm, 7)
    && e.tag in {USER_OBJ, USER, GROUP_OBJ, GROUP, MASK, OTHER}
    && (!Named(e.tag) ==> e.id == UNDEFINED)
  }

  predicate Distinct(a: Entries) {
    forall i, j | 0 <= i < j < |a| :: a[i].Key() != a[j].Key()
  }

  predicate HasTag(a: Entries, tag: u16) {
    exists e | e in a :: e.tag == tag
  }

  /** Exactly one entry each for owner, owning group and others, distinct named entries, one mask if
      there is a named entry. */
  predicate Valid(a: Entries) {
    && (forall e | e in a :: ValidEntry(e))
    && Distinct(a)
    && HasTag(a, USER_OBJ) && HasTag(a, GROUP_OBJ) && HasTag(a, OTHER)
    && (HasNamedEntries(a) ==> HasTag(a, MASK))
  }

  /** Every group-class permission is within the mask. */
  predicate Tight(a: Entries) {
    forall e | e in a && GroupClass(e.tag) :: Within(e.perm, EffectiveMask(a))
  }

  // The mask of a valid list.

  lemma {:induction false} UnionCovers(a: Entries, e: Entry)
    requires e in a && GroupClass(e.tag)
    ensures Within(e.perm, Union(a))
  {
    hide Within, Join;
    var rest, last := a[..|a| - 1], a[|a| - 1];
    assert a == rest + [last];
    JoinUpper(Union(rest), last.perm);
    if e != last {
      UnionCovers(rest, e);
      if GroupClass(last.tag) {
        WithinTransitive(e.perm, Union(rest), Union(a));
      }
    }
  }

  lemma {:induction false} UnionIsLeast(a: Entries, bound: u16)
    requires forall e | e in a && GroupClass(e.tag) :: Within(e.perm, bound)
    ensures Within(Union(a), bound)
  {
    hide Within, Join;
    if a == [] {
      NothingIsWithin(bound);
    } else {
      UnionIsLeast(a[..|a| - 1], bound);
      if GroupClass(a[|a| - 1].tag) {
        JoinLeast(Union(a[..|a| - 1]), a[|a| - 1].perm, bound);
      }
    }
  }

  /** Two lists whose group-class entries permit the same have the same union. */
  lemma SameUnion(a: Entries, b: Entries)
    requires forall e | e in a && GroupClass(e.tag) :: exists f | f in b :: GroupClass(f.tag) && f.perm == e.perm
    requires forall e | e in b && GroupClass(e.tag) :: exists f | f in a :: GroupClass(f.tag) && f.perm == e.perm
    ensures Union(a) == Union(b)
  {
    hide Within, Union;
    UnionWithin(a, b);
    UnionWithin(b, a);
    WithinAntisymmetric(Union(a), Union(b));
  }

  lemma UnionWithin(a: Entries, b: Entries)
    requires forall e | e in a && GroupClass(e.tag) :: exists f | f in b :: GroupClass(f.tag) && f.perm == e.perm
    ensures Within(Union(a), Union(b))
  {
    hide Within, Union;
    forall e | e in a && GroupClass(e.tag) ensures Within(e.perm, Union(b)) {
      var f :| f in b && GroupClass(f.tag) && f.perm == e.perm;
      UnionCovers(b, f);
    }
    UnionIsLeast(a, Union(b));
  }

  /** With one mask entry, the effective mask is that entry. */
  lemma {:induction false} MaskEntry(a: Entries, e: Entry)
    requires e in a && e.tag == MASK && forall f | f in a && f.tag == MASK :: f == e
    ensures EffectiveMask(a) == e.perm
  {
    if a[0].tag != MASK {
      assert a == [a[0]] + a[1..];
      MaskEntry(a[1..], e);
    }
  }

  lemma {:induction false} NoMaskEntry(a: Entries)
    requires !HasTag(a, MASK)
    ensures EffectiveMask(a) == 7
  {
    if a != [] {
      assert a[0] in a;
      assert forall e | e in a[1..] :: e in a;
      NoMaskEntry(a[1..]);
    }
  }

  lemma SameKeySameEntry(a: Entries, e: Entry, f: Entry)
    requires Distinct(a) && e in a && f in a && e.Key() == f.Key()
    ensures e == f
  {
  }

  lemma MaskOf(a: Entries)
    requires Valid(a)
    ensures forall e | e in a && e.tag == MASK :: EffectiveMask(a) == e.perm
    ensures !HasTag(a, MASK) ==> EffectiveMask(a) == 7
    ensures Within(EffectiveMask(a), 7)
  {
    if HasTag(a, MASK) {
      var e :| e in a && e.tag == MASK;
      forall f | f in a && f.tag == MASK ensures f == e {
        SameKeySameEntry(a, e, f);
      }
      MaskEntry(a, e);
    } else {
      NoMaskEntry(a);
    }
  }

  lemma SameKeySameIndex(a: Entries, i: nat, j: nat)
    requires Distinct(a) && i < |a| && j < |a| && a[i].Key() == a[j].Key()
    ensures i == j
  {
  }

  // What the edits do to the members of a list.

  lemma RecalculateMaskMembers(a: Entries)
    requires Distinct(a) && forall e | e in a && e.tag == MASK :: e.id == UNDEFINED
    ensures var r := RecalculateMask(a);
            && Distinct(r)
            && (forall e: Entry | e.tag != MASK :: e in r <==> e in a)
            && (forall e: Entry | e.tag == MASK :: e in r <==> e == Entry(MASK, Union(a), UNDEFINED))
  {
    hide Union, LastMask;
    var r, i := RecalculateMask(a), LastMask(a);
    if i >= 0 {
      forall j | 0 <= j < |a| && a[j].tag == MASK ensures j == i {
        SameKeySameIndex(a, i, j);
      }
      assert forall j | 0 <= j < |a| :: r[j] == if j == i then Entry(MASK, Union(a), UNDEFINED) else a[j];
      assert r[i] in r;
      forall e: Entry | e.tag != MASK && e in a ensures e in r {
        var j :| 0 <= j < |a| && a[j] == e;
        assert r[j] == e;
      }
    } else {
      assert r[|a|] in r;
    }
  }

  function SetEntry(e: Entry, mask: u16, uid: u32, perm: u16): Entry {
    if IsUser(e, uid) then e.(perm := perm) else CollapseEntry(e, mask)
  }

  lemma SetUserPointwise(a: Entries, mask: u16, uid: u32, perm: u16)
    ensures var c := SetUser(Collapse(a, mask), uid, perm);
            && |c| == |a| + (if HasUser(a, uid) then 0 else 1)
            && (forall i | 0 <= i < |a| :: c[i] == SetEntry(a[i], mask, uid, perm))
            && (!HasUser(a, uid) ==> c[|a|] == Entry(USER, perm, uid))
  {
    hide Meet;
    var b := Collapse(a, mask);
    forall i | 0 <= i < |a| ensures IsUser(b[i], uid) <==> IsUser(a[i], uid) {
    }
    if e :| e in a && IsUser(e, uid) {
      var i :| 0 <= i < |a| && a[i] == e;
      assert b[i] in b;
    }
  }

  lemma SetUserDistinct(a: Entries, mask: u16, uid: u32, perm: u16)
    requires Distinct(a)
    ensures Distinct(SetUser(Collapse(a, mask), uid, perm))
  {
    SetUserPointwise(a, mask, uid, perm);
    hide Meet, SetUser, Collapse;
    var c := SetUser(Collapse(a, mask), uid, perm);
    forall i, j | 0 <= i < j < |c| ensures c[i].Key() != c[j].Key() {
      assert c[i].Key() == a[i].Key();
      if j == |a| {
        assert a[i] in a && !IsUser(a[i], uid);
      } else {
        assert c[j].Key() == a[j].Key();
      }
    }
  }

  /** The members of a list after the collapse and the new entry. */
  lemma SetUserMembers(a: Entries, mask: u16, uid: u32, perm: u16)
    ensures var c := SetUser(Collapse(a, mask), uid, perm);
            && (forall e | e in a :: SetEntry(e, mask, uid, perm) in c)
            && Entry(USER, perm, uid) in c
            && (forall e | e in c :: e == Entry(USER, perm, uid) ||
                  exists f | f in a :: !IsUser(f, uid) && e == CollapseEntry(f, mask))
  {
    SetUserPointwise(a, mask, uid, perm);
    hide Meet, SetUser, Collapse, CollapseEntry;
    var c := SetUser(Collapse(a, mask), uid, perm);
    forall e | e in a ensures SetEntry(e, mask, uid, perm) in c {
      var i :| 0 <= i < |a| && a[i] == e;
      assert c[i] in c;
    }
    if e :| e in a && IsUser(e, uid) {
      assert SetEntry(e, mask, uid, perm) == Entry(USER, perm, uid);
    } else {
      assert c[|a|] in c;
    }
    forall e | e in c && e != Entry(USER, perm, uid)
      ensures exists f | f in a :: !IsUser(f, uid) && e == CollapseEntry(f, mask)
    {
      var i :| 0 <= i < |c| && c[i] == e;
      assert a[i] in a && !IsUser(a[i], uid);
    }
  }
}

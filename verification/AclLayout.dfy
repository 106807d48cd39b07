/**
 The bytes of a list, position by position: the layout of the extended attributes system.posix_acl_access
 and system.posix_acl_default, as Linux defines it.
 */
module AclLayout {
  import opened Wrappers
  import opened Acl
  import opened AclAccess
  import opened AclEdits
  import opened AclMode
  import opened AclCodec
  import opened AclOrder

  /** The eight bytes of one entry: tag and permissions in two bytes each, the identifier in four, all with
      the low byte first. */
  predicate Laid(b: Bytes, at: nat, e: Entry) {
    && at + 8 <= |b|
    && b[at] == e.tag % 256 && b[at + 1] == e.tag / 256
    && b[at + 2] == e.perm % 256 && b[at + 3] == e.perm / 256
    && b[at + 4] == e.id % 256 && b[at + 5] == e.id / 256 % 256
    && b[at + 6] == e.id / 0x1_0000 % 256 && b[at + 7] == e.id / 0x100_0000
  }

  lemma TwoBytes(b0: u8, b1: u8)
    ensures Get16(b0, b1) % 256 == b0 && Get16(b0, b1) / 256 == b1
  {
  }

  lemma FourBytes(b0: u8, b1: u8, b2: u8, b3: u8)
    ensures var x := Get32(b0, b1, b2, b3);
            x % 256 == b0 && x / 256 % 256 == b1 && x / 0x1_0000 % 256 == b2 && x / 0x100_0000 == b3
  {
    var x := Get32(b0, b1, b2, b3);
    assert x == b0 + 256 * (b1 + 256 * b2 + 0x1_0000 * b3);
    assert x / 256 == b1 + 256 * (b2 + 256 * b3);
    assert x / 0x1_0000 == b2 + 256 * b3;
  }

  lemma EntryIsLaid(e: Entry)
    ensures Laid(PutEntry(e), 0, e)
  {
    var b := PutEntry(e);
    EntryLength(e);
    EntryRoundTrip(e, []);
    assert b + [] == b;
    hide PutEntry;
    GetIsLaid(b);
  }

  lemma LaidLater(b: Bytes, before: Bytes, at: nat, e: Entry)
    requires Laid(b, at, e)
    ensures Laid(before + b, |before| + at, e)
  {
    var c := before + b;
    var k := |before| + at;
    assert c[k + 0] == b[at + 0] && c[k + 1] == b[at + 1] && c[k + 2] == b[at + 2] && c[k + 3] == b[at + 3];
    assert c[k + 4] == b[at + 4] && c[k + 5] == b[at + 5] && c[k + 6] == b[at + 6] && c[k + 7] == b[at + 7];
  }

  lemma LaidLonger(b: Bytes, rest: Bytes, at: nat, e: Entry)
    requires Laid(b, at, e)
    ensures Laid(b + rest, at, e)
  {
  }

  lemma {:induction false} EntriesAreLaid(a: Entries, i: nat)
    requires i < |a|
    ensures |PutEntries(a)| == 8 * |a| && Laid(PutEntries(a), 8 * i, a[i])
  {
    hide Laid, PutEntry;
    EntriesRoundTrip(a);
    EntryLength(a[0]);
    if i == 0 {
      EntryIsLaid(a[0]);
      LaidLonger(PutEntry(a[0]), PutEntries(a[1..]), 0, a[0]);
    } else {
      EntriesAreLaid(a[1..], i - 1);
      LaidLater(PutEntries(a[1..]), PutEntry(a[0]), 8 * (i - 1), a[i]);
    }
  }

  /** A written list: the version 2 in four bytes, low byte first, then its entries, ordered by tag and among
      equal tags by identifier, in eight bytes each. */
  lemma EncodeIsLaid(a: Entries) returns (sorted: Entries)
    ensures |Encode(a)| == 4 + 8 * |a| && Encode(a)[..4] == [2, 0, 0, 0]
    ensures multiset(sorted) == multiset(a)
    ensures forall i, j | 0 <= i < j < |sorted| :: sorted[i].tag < sorted[j].tag || (sorted[i].tag == sorted[j].tag && sorted[i].id <= sorted[j].id)
    ensures forall i | 0 <= i < |sorted| :: Laid(Encode(a), 4 + 8 * i, sorted[i])
  {
    hide Sorted, Laid, Put32, PutEntries, GetEntries, InOrder;
    sorted := Sorted(a);
    OrderIsPlain(a);
    SortedPermutes(a);
    SameSize(sorted, a);
    VersionIsLaid();
    EntriesRoundTrip(sorted);
    forall i | 0 <= i < |sorted| ensures Laid(Encode(a), 4 + 8 * i, sorted[i]) {
      EntriesAreLaid(sorted, i);
      LaidLater(PutEntries(sorted), Put32(VERSION), 8 * i, sorted[i]);
    }
  }

  lemma OrderIsPlain(a: Entries)
    ensures var s := Sorted(a);
            forall i, j | 0 <= i < j < |s| :: s[i].tag < s[j].tag || (s[i].tag == s[j].tag && s[i].id <= s[j].id)
  {
    SortedInOrder(a);
    hide Sorted;
  }

  lemma VersionIsLaid()
    ensures Put32(VERSION) == [2, 0, 0, 0]
  {
  }

  lemma SameSize(a: Entries, b: Entries)
    requires multiset(a) == multiset(b)
    ensures |a| == |b|
  {
    assert |multiset(a)| == |a| && |multiset(b)| == |b|;
  }

  lemma {:induction false} InsertPermutes(e: Entry, a: Entries)
    ensures multiset(Insert(e, a)) == multiset(a) + multiset{e}
  {
    if a != [] && !Before(e, a[0]) {
      InsertPermutes(e, a[1..]);
      assert a == [a[0]] + a[1..];
    }
  }

  /** The sort keeps every entry as often as it occurs. */
  lemma {:induction false} SortedPermutes(a: Entries)
    ensures multiset(Sorted(a)) == multiset(a)
  {
    if a != [] {
      var init, last := a[..|a| - 1], a[|a| - 1];
      SortedPermutes(init);
      InsertPermutes(last, Sorted(init));
      assert a == init + [last];
    }
  }

  // Reading.

  /** The `i`-th entry has a permission beyond the three bits. */
  predicate Oversized(b: Bytes, i: nat) {
    8 * i + 8 <= |b| && (b[8 * i + 2] > 7 || b[8 * i + 3] > 0)
  }

  lemma VersionBytes(b: Bytes)
    requires |b| >= 4
    ensures Get32(b[0], b[1], b[2], b[3]) == VERSION <==> b[..4] == [2, 0, 0, 0]
  {
    assert b[..4] == [b[0], b[1], b[2], b[3]];
  }

  lemma OversizedLater(b: Bytes, i: nat)
    requires |b| >= 8
    ensures Oversized(b[8..], i) <==> Oversized(b, i + 1)
  {
    assert 8 * (i + 1) == 8 * i + 8;
    if 8 * i + 8 <= |b| - 8 {
      assert b[8..][8 * i + 2] == b[8 * i + 10] && b[8..][8 * i + 3] == b[8 * i + 11];
    }
  }

  lemma OversizedFirst(b: Bytes)
    requires |b| >= 8
    ensures Oversized(b, 0) <==> !Within(GetEntry(b).perm, 7)
  {
    WithinSeven(GetEntry(b).perm);
  }

  lemma {:induction false} EntriesReport(b: Bytes)
    requires |b| % 8 == 0
    ensures GetEntries(b).Failure? ==> GetEntries(b).error == InvalidPermissions
    ensures GetEntries(b).Failure? <==> exists i: nat :: Oversized(b, i)
  {
    if |b| >= 8 {
      EntriesReport(b[8..]);
      OversizedFirst(b);
      ReadFirstEntry(b);
      hide GetEntries, Within, Oversized;
      if i: nat :| Oversized(b[8..], i) {
        OversizedLater(b, i);
      }
      if i: nat :| Oversized(b, i) {
        if i > 0 {
          OversizedLater(b, i - 1);
        }
      }
    } else {
      assert forall i: nat :: !Oversized(b, i);
    }
  }

  lemma ReadFirstEntry(b: Bytes)
    requires |b| >= 8
    ensures GetEntries(b) == if !Within(GetEntry(b).perm, 7) then Failure(InvalidPermissions)
                             else if GetEntries(b[8..]).Failure? then GetEntries(b[8..])
                             else Success([GetEntry(b)] + GetEntries(b[8..]).value)
  {
    hide Within, GetEntry;
  }

  /** A list is refused if it is not of version 2 or not in whole entries, and if an entry has a permission
      beyond the three bits. */
  lemma ParseReports(b: Bytes)
    ensures var framed := |b| >= 4 && |b| % 8 == 4 && b[..4] == [2, 0, 0, 0];
            && (Parse(b) == Failure(InvalidXattr) <==> !framed)
            && (Parse(b) == Failure(InvalidPermissions) <==> framed && exists i: nat :: Oversized(b[4..], i))
  {
    hide Get32, GetEntries, Oversized;
    assert |b| >= 4 ==> (|b| % 8 == 4 <==> (|b| - 4) % 8 == 0);
    if |b| >= 4 && |b| % 8 == 4 {
      VersionBytes(b);
      EntriesReport(b[4..]);
    }
  }

  lemma {:induction false} EntriesRead(b: Bytes, n: nat, i: nat)
    requires |b| == 8 * n && GetEntries(b).Success? && i < n
    ensures i < |GetEntries(b).value| && Laid(b, 8 * i, GetEntries(b).value[i])
  {
    ReadFirstEntry(b);
    hide GetEntries, Within, Laid, GetEntry;
    if i == 0 {
      GetIsLaid(b);
    } else {
      EntriesRead(b[8..], n - 1, i - 1);
      LaidAfterFirst(b, i, GetEntries(b[8..]).value[i - 1]);
    }
  }

  lemma LaidAfterFirst(b: Bytes, i: nat, e: Entry)
    requires i > 0 && |b| >= 8 && Laid(b[8..], 8 * (i - 1), e)
    ensures Laid(b, 8 * i, e)
  {
    hide Laid;
    assert b == b[..8] + b[8..];
    LaidLater(b[8..], b[..8], 8 * (i - 1), e);
    assert 8 + 8 * (i - 1) == 8 * i;
  }

  lemma GetIsLaid(b: Bytes)
    requires |b| >= 8
    ensures Laid(b, 0, GetEntry(b))
  {
    TwoBytes(b[0], b[1]);
    TwoBytes(b[2], b[3]);
    FourBytes(b[4], b[5], b[6], b[7]);
    hide Get16, Get32;
  }

  /** What is read is what is there: entry by entry, in the order of the bytes. */
  lemma ParseReads(b: Bytes, i: nat)
    requires Parse(b).Success? && 4 + 8 * i + 8 <= |b|
    ensures i < |Parse(b).value| && Laid(b, 4 + 8 * i, Parse(b).value[i])
  {
    hide GetEntries, Laid, Get32;
    EntriesRead(b[4..], (|b| - 4) / 8, i);
    assert b == b[..4] + b[4..];
    LaidLater(b[4..], b[..4], 8 * i, Parse(b).value[i]);
  }

  // The tags by their numbers.

  /** A granted list, by the numbers Linux gives the tags: 1 owner, 2 user, 4 owning group, 8 group, 16 mask,
      32 others.  The user's entry is there and a mask is there; owner and others stay, and the entries under
      the mask keep what it left them. */
  lemma GrantWrites(a: Entries, uid: u32, perm: u16)
    requires Valid(a)
    ensures var g := GrantUser(a, uid, perm);
            && Entry(2, perm, uid) in g
            && (exists mask: u16 :: Entry(16, mask, 0xffff_ffff) in g)
            && forall e | e in a ::
                 if e.tag == 1 || e.tag == 32 then e in g
                 else if e.tag == 2 && e.id == uid then true
                 else e.tag == 16 || (e.tag in {2, 4, 8} && Entry(e.tag, Meet(e.perm, EffectiveMask(a)), e.id) in g)
  {
    GrantMembers(a, uid, perm);
    hide GrantUser, Union, Meet, Within, SetUser, Collapse, EffectiveMask;
    assert Entry(MASK, Union(SetUser(Collapse(a, EffectiveMask(a)), uid, perm)), UNDEFINED) in GrantUser(a, uid, perm);
    forall e | e in a
      ensures if e.tag == 1 || e.tag == 32 then e in GrantUser(a, uid, perm)
              else if e.tag == 2 && e.id == uid then true
              else e.tag == 16 || (e.tag in {2, 4, 8} && Entry(e.tag, Meet(e.perm, EffectiveMask(a)), e.id) in GrantUser(a, uid, perm))
    {
      assert ValidEntry(e);
      if e.tag != MASK {
        assert SetEntry(e, EffectiveMask(a), uid, perm) in GrantUser(a, uid, perm);
      }
    }
  }

  // The list without named entries.

  /** Granting to a user and revoking again brings back the very bytes of a list without named entries. */
  lemma MinimalListComesBack(a: Entries, uid: u32, perm: u16)
    requires Valid(a) && !HasNamedEntries(a) && !HasTag(a, MASK) && Within(perm, 7)
    ensures Encode(RevokeUser(GrantUser(a, uid, perm), uid).0) == Encode(a)
  {
    var g := GrantUser(a, uid, perm);
    var r := RevokeUser(g, uid).0;
    NobodyNamed(a, uid);
    NoMaskAfter(a, uid, perm);
    hide *;
    GrantThenRevoke(a, uid, perm, File(0, 0), Credential(0, {}), 0);
    ValidIsDistinct(a);
    ValidIsDistinct(r);
    UnmaskedIsTight(a);
    TightRights(a);
    TightRights(r);
    forall e: Entry ensures e in a <==> e in r {
      if e.tag == MASK {
        NoMask(a, e);
        NoMask(r, e);
      } else {
        RawEntry(a, e);
        RawEntry(r, e);
      }
    }
    SameBytes(a, r);
  }

  lemma NobodyNamed(a: Entries, uid: u32)
    requires !HasNamedEntries(a)
    ensures !HasUser(a, uid)
  {
  }

  lemma NoMask(a: Entries, e: Entry)
    requires !HasTag(a, MASK) && e.tag == MASK
    ensures e !in a
  {
  }

  lemma UnmaskedIsTight(a: Entries)
    requires Valid(a) && !HasTag(a, MASK)
    ensures Tight(a)
  {
    hide Within;
    NoMaskEntry(a);
  }

  lemma NoMaskAfter(a: Entries, uid: u32, perm: u16)
    requires Valid(a) && !HasNamedEntries(a) && Within(perm, 7)
    ensures !HasTag(RevokeUser(GrantUser(a, uid, perm), uid).0, MASK)
  {
    var g := GrantUser(a, uid, perm);
    GrantIsValid(a, uid, perm);
    GrantedHasUser(a, uid, perm);
    OnlyOneNamed(a, uid, perm);
    RevokeMembers(g, uid);
  }

  lemma OnlyOneNamed(a: Entries, uid: u32, perm: u16)
    requires Valid(a) && !HasNamedEntries(a)
    ensures !HasNamedEntries(WithoutUser(GrantUser(a, uid, perm), uid))
  {
    var g := GrantUser(a, uid, perm);
    RestMembers(g, uid);
    hide WithoutUser, GrantUser, Valid;
    forall e | e in WithoutUser(g, uid) ensures !Named(e.tag) {
      OneNamed(a, uid, perm, e);
    }
  }
}

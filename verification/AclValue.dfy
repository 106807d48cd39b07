/**
 The list as the code changes it: loops that edit the entries in place, proved equal to the functions
 of Acl and AclCodec.
 */
module AclValues {
  import opened Wrappers
  import opened Acl
  import opened AclCodec

  function EntryAt(data: Bytes, offset: nat): Entry
    requires offset + 8 <= |data|
  {
    Entry(Get16(data[offset], data[offset + 1]), Get16(data[offset + 2], data[offset + 3]),
          Get32(data[offset + 4], data[offset + 5], data[offset + 6], data[offset + 7]))
  }

  lemma ReadOne(data: Bytes, offset: nat)
    requires offset + 8 <= |data|
    ensures GetEntries(data[offset..]) ==
            if !Within(EntryAt(data, offset).perm, 7) then Failure(InvalidPermissions)
            else Prefix([EntryAt(data, offset)], GetEntries(data[offset + 8..]))
  {
    hide Within, GetEntries, Prefix;
    var b := data[offset..];
    assert |b| == |data| - offset;
    ReadFirst(b);
    assert b[8..] == data[offset + 8..];
    SameEntry(data, offset);
  }

  lemma SameEntry(data: Bytes, offset: nat)
    requires offset + 8 <= |data|
    ensures GetEntry(data[offset..]) == EntryAt(data, offset)
  {
    hide Get16, Get32;
    var b := data[offset..];
    assert forall i | 0 <= i < 8 :: b[i] == data[offset + i];
  }

  lemma ReadFirst(b: Bytes)
    requires |b| >= 8
    ensures GetEntries(b) ==
            if !Within(GetEntry(b).perm, 7) then Failure(InvalidPermissions) else Prefix([GetEntry(b)], GetEntries(b[8..]))
  {
    hide Within, GetEntry;
  }

  /** `parseACL`: reads the entries one by one, or refuses. */
  method ParseACL(data: Bytes) returns (result: Result<Entries, ParseError>)
    ensures result == Parse(data)
  {
    hide Within, Get16, Get32, GetEntries;
    if |data| < 4 || (|data| - 4) % 8 != 0 || Get32(data[0], data[1], data[2], data[3]) != VERSION {
      return Failure(InvalidXattr);
    }
    var entries: Entries := [];
    var offset := 4;
    Prefixed(GetEntries(data[4..]));
    while offset < |data|
      invariant 4 <= offset <= |data| && (|data| - offset) % 8 == 0
      invariant Parse(data) == Prefix(entries, GetEntries(data[offset..]))
    {
      ReadOne(data, offset);
      var entry := EntryAt(data, offset);
      if !Within(entry.perm, 7) {
        return Failure(InvalidPermissions);
      }
      PrefixMore(entries, entry, GetEntries(data[offset + 8..]));
      entries := entries + [entry];
      offset := offset + 8;
    }
    NothingToRead(data[offset..]);
    assert entries + [] == entries;
    return Success(entries);
  }

  lemma NothingToRead(b: Bytes)
    requires b == []
    ensures GetEntries(b) == Success([])
  {
  }

  function Prefix(a: Entries, rest: Result<Entries, ParseError>): Result<Entries, ParseError> {
    if rest.Failure? then rest else Success(a + rest.value)
  }

  lemma Prefixed(rest: Result<Entries, ParseError>)
    ensures Prefix([], rest) == rest
  {
    assert rest.Success? ==> [] + rest.value == rest.value;
  }

  lemma PrefixMore(a: Entries, e: Entry, rest: Result<Entries, ParseError>)
    ensures Prefix(a, Prefix([e], rest)) == Prefix(a + [e], rest)
  {
    assert rest.Success? ==> a + ([e] + rest.value) == (a + [e]) + rest.value;
  }

  /** Writes bytes into a buffer. */
  method PutBytes(buffer: array<u8>, offset: nat, b: Bytes)
    requires offset + |b| <= buffer.Length
    modifies buffer
    ensures buffer[..offset] == old(buffer[..offset]) && buffer[offset..offset + |b|] == b
  {
    for i := 0 to |b|
      invariant buffer[..offset] == old(buffer[..offset])
      invariant forall j | 0 <= j < i :: buffer[offset + j] == b[j]
    {
      buffer[offset + i] := b[i];
    }
  }

  class AclValue {
    var entries: Entries

    constructor (entries: Entries)
      ensures this.entries == entries
    {
      this.entries := entries;
    }

    method FindEffectiveMask() returns (mask: u16)
      ensures mask == EffectiveMask(entries)
    {
      var i := 0;
      while i < |entries|
        invariant 0 <= i <= |entries| && EffectiveMask(entries) == EffectiveMask(entries[i..])
      {
        if entries[i].tag == MASK {
          return entries[i].perm;
        }
        assert entries[i..][1..] == entries[i + 1..];
        i := i + 1;
      }
      return 7;
    }

    method CheckUserHas(uid: u32, wanted: u16) returns (has: bool)
      ensures has == UserHas(entries, uid, wanted)
    {
      var mask := FindEffectiveMask();
      var i := 0;
      while i < |entries|
        invariant 0 <= i <= |entries| && UserPerm(entries, uid) == UserPerm(entries[i..], uid)
      {
        if entries[i].tag == USER && entries[i].id == uid {
          return Within(wanted, Meet(entries[i].perm, mask));
        }
        assert entries[i..][1..] == entries[i + 1..];
        i := i + 1;
      }
      return false;
    }

    method CheckNamedEntries() returns (has: bool)
      ensures has == HasNamedEntries(entries)
    {
      for i := 0 to |entries|
        invariant forall j | 0 <= j < i :: !Named(entries[j].tag)
      {
        if entries[i].tag == USER || entries[i].tag == GROUP {
          assert Named(entries[i].tag);
          return true;
        }
      }
      return false;
    }

    method Recalculate()
      modifies this
      ensures entries == RecalculateMask(old(entries))
    {
      var mask := 0;
      var maskIndex := -1;
      for i := 0 to |entries|
        invariant mask == Union(entries[..i]) && maskIndex == LastMask(entries[..i])
      {
        assert entries[..i + 1][..i] == entries[..i];
        var entry := entries[i];
        if entry.tag == GROUP_OBJ || entry.tag == USER || entry.tag == GROUP {
          mask := Join(mask, entry.perm);
        } else if entry.tag == MASK {
          maskIndex := i;
        }
      }
      assert entries[..|entries|] == entries;
      if maskIndex >= 0 {
        entries := entries[maskIndex := entries[maskIndex].(perm := mask)];
      } else {
        entries := entries + [Entry(MASK, mask, UNDEFINED)];
      }
    }

    /** First loop of `grantUser`: every group-class entry keeps what it has in effect. */
    method CollapseToEffective()
      modifies this
      ensures entries == Collapse(old(entries), EffectiveMask(old(entries)))
    {
      var mask := FindEffectiveMask();
      for i := 0 to |entries|
        invariant |entries| == |old(entries)|
        invariant forall j | 0 <= j < |entries| :: entries[j] == if j < i then CollapseEntry(old(entries)[j], mask) else old(entries)[j]
      {
        if entries[i].tag == GROUP_OBJ || entries[i].tag == USER || entries[i].tag == GROUP {
          entries := entries[i := entries[i].(perm := Meet(entries[i].perm, mask))];
        }
      }
    }

    method Grant(uid: u32, perm: u16)
      modifies this
      ensures entries == GrantUser(old(entries), uid, perm)
    {
      CollapseToEffective();
      ghost var before := entries;
      var found := false;
      for i := 0 to |entries|
        invariant |entries| == |before|
        invariant forall j | 0 <= j < |entries| ::
                    entries[j] == if j < i && IsUser(before[j], uid) then before[j].(perm := perm) else before[j]
        invariant found <==> exists j | 0 <= j < i :: IsUser(before[j], uid)
      {
        if entries[i].tag == USER && entries[i].id == uid {
          entries := entries[i := entries[i].(perm := perm)];
          found := true;
        }
      }
      assert found <==> HasUser(before, uid);
      if !found {
        entries := entries + [Entry(USER, perm, uid)];
      }
      assert entries == SetUser(before, uid, perm);
      Recalculate();
    }

    method Revoke(uid: u32) returns (removed: bool)
      modifies this
      ensures (entries, removed) == RevokeUser(old(entries), uid)
    {
      var result: Entries := [];
      removed := false;
      for i := 0 to |entries|
        invariant result == WithoutUser(entries[..i], uid)
        invariant removed <==> HasUser(entries[..i], uid)
      {
        var entry := entries[i];
        assert entries[..i + 1] == entries[..i] + [entry];
        assert entries[..i + 1][..i] == entries[..i];
        if entry.tag == USER && entry.id == uid {
          removed := true;
        } else {
          result := result + [entry];
        }
      }
      assert entries[..|entries|] == entries;
      if !removed {
        KeepAll(entries, (e: Entry) => !IsUser(e, uid));
        entries := result;
        return false;
      }
      entries := result;
      var named := CheckNamedEntries();
      if !named {
        var withoutMask: Entries := [];
        for i := 0 to |entries|
          invariant withoutMask == WithoutMask(entries[..i])
        {
          assert entries[..i + 1][..i] == entries[..i];
          if entries[i].tag != MASK {
            withoutMask := withoutMask + [entries[i]];
          }
        }
        assert entries[..|entries|] == entries;
        entries := withoutMask;
      } else {
        Recalculate();
      }
      return true;
    }

    /** `encode`: fills a buffer of the right size with the sorted entries. */
    method EncodeBytes() returns (result: array<u8>)
      ensures fresh(result) && result[..] == Encode(entries)
    {
      hide Put32, PutEntry, Sorted, PutEntries;
      var sorted := Sorted(entries);
      PutNothing();
      PutLength(sorted);
      result := new u8[4 + 8 * |sorted|];
      PutBytes(result, 0, Put32(VERSION));
      assert result[..4] == Put32(VERSION);
      var i := 0;
      while i < |sorted|
        invariant 0 <= i <= |sorted|
        invariant result[..4 + 8 * i] == Put32(VERSION) + PutEntries(sorted[..i])
      {
        var o := 4 + 8 * i;
        EntryLength(sorted[i]);
        PutBytes(result, o, PutEntry(sorted[i]));
        PutLength(sorted[..i]);
        assert result[..o + 8] == result[..o] + result[o..o + 8];
        PutAppend(sorted[..i], sorted[i]);
        assert sorted[..i + 1] == sorted[..i] + [sorted[i]];
        i := i + 1;
      }
      assert sorted[..|sorted|] == sorted;
      assert result[..4 + 8 * |sorted|] == result[..];
    }
  }

  lemma PutNothing()
    ensures PutEntries([]) == [] && |Put32(VERSION)| == 4
  {
  }

  lemma {:induction false} PutLength(a: Entries)
    ensures |PutEntries(a)| == 8 * |a|
  {
    if a != [] {
      EntryLength(a[0]);
      PutLength(a[1..]);
    }
  }

  lemma {:induction false} PutAppend(a: Entries, e: Entry)
    ensures PutEntries(a + [e]) == PutEntries(a) + PutEntry(e)
  {
    if a == [] {
      assert [e][1..] == [];
    } else {
      assert (a + [e])[1..] == a[1..] + [e];
      PutAppend(a[1..], e);
    }
  }
}

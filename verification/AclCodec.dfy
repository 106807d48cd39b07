/**
 The bytes of a list: the little-endian layout of the POSIX ACL extended attributes, written in
 sorted order and read back.
 */
module AclCodec {
  import opened Wrappers
  import opened Acl

  type Bytes = seq<u8>

  // Integers.

  function Put16(x: u16): Bytes {
    [x % 0x100, x / 0x100]
  }

  function Get16(b0: u8, b1: u8): u16 {
    b0 + 0x100 * b1
  }

  function Put32(x: u32): Bytes {
    Put16(x % 0x1_0000) + Put16(x / 0x1_0000)
  }

  function Get32(b0: u8, b1: u8, b2: u8, b3: u8): u32 {
    Get16(b0, b1) + 0x1_0000 * Get16(b2, b3)
  }

  lemma RoundTrip16(x: u16)
    ensures Get16(Put16(x)[0], Put16(x)[1]) == x
  {
  }

  lemma RoundTrip32(x: u32)
    ensures var b := Put32(x); Get32(b[0], b[1], b[2], b[3]) == x
  {
  }

  // The order of the written entries.

  /** The order the sort uses: by tag, then by identifier. */
  predicate Before(e: Entry, f: Entry) {
    if e.tag != f.tag then e.tag < f.tag else e.id < f.id
  }

  /** Puts an entry after the last one that is not greater. */
  function Insert(e: Entry, a: Entries): Entries {
    if a == [] then [e]
    else if Before(e, a[0]) then [e] + a
    else [a[0]] + Insert(e, a[1..])
  }

  /** A stable sort by `Before`. */
  function Sorted(a: Entries): Entries {
    if a == [] then [] else Insert(a[|a| - 1], Sorted(a[..|a| - 1]))
  }

  predicate InOrder(a: Entries) {
    forall i, j | 0 <= i < j < |a| :: !Before(a[j], a[i])
  }

  function SameKeyAs(a: Entries, k: Key): Entries {
    Keep(a, (e: Entry) => e.Key() == k)
  }

  // Whole lists.

  function PutEntry(e: Entry): Bytes {
    Put16(e.tag) + Put16(e.perm) + Put32(e.id)
  }

  function PutEntries(a: Entries): Bytes {
    if a == [] then [] else PutEntry(a[0]) + PutEntries(a[1..])
  }

  function Encode(a: Entries): Bytes {
    Put32(VERSION) + PutEntries(Sorted(a))
  }

  datatype ParseError = InvalidXattr | InvalidPermissions

  function GetEntry(b: Bytes): Entry
    requires |b| >= 8
  {
    Entry(Get16(b[0], b[1]), Get16(b[2], b[3]), Get32(b[4], b[5], b[6], b[7]))
  }

  function GetEntries(b: Bytes): Result<Entries, ParseError> {
    if |b| < 8 then Success([])
    else
      var e := GetEntry(b);
      if !Within(e.perm, 7) then Failure(InvalidPermissions)
      else
        var rest := GetEntries(b[8..]);
        if rest.Failure? then rest else Success([e] + rest.value)
  }

  function Parse(b: Bytes): Result<Entries, ParseError> {
    if |b| < 4 || (|b| - 4) % 8 != 0 || Get32(b[0], b[1], b[2], b[3]) != VERSION then Failure(InvalidXattr)
    else GetEntries(b[4..])
  }

  // Sorting.

  lemma OrderTransitive(e: Entry, f: Entry, g: Entry)
    requires Before(e, f) && !Before(g, f)
    ensures !Before(g, e)
  {
  }

  lemma {:induction false} InsertInOrder(e: Entry, a: Entries)
    requires InOrder(a)
    ensures InOrder(Insert(e, a))
    ensures forall x :: x in Insert(e, a) <==> x == e || x in a
  {
    if a == [] {
    } else if Before(e, a[0]) {
      forall j | 0 <= j < |a| ensures !Before(a[j], e) {
        OrderTransitive(e, a[0], a[j]);
      }
    } else {
      InsertInOrder(e, a[1..]);
      assert a == [a[0]] + a[1..];
      var rest := Insert(e, a[1..]);
      forall j | 0 <= j < |rest| ensures !Before(rest[j], a[0]) {
        assert rest[j] in rest;
      }
    }
  }

  lemma {:induction false} SortedInOrder(a: Entries)
    ensures InOrder(Sorted(a))
    ensures forall x :: x in Sorted(a) <==> x in a
  {
    if a != [] {
      SortedInOrder(a[..|a| - 1]);
      InsertInOrder(a[|a| - 1], Sorted(a[..|a| - 1]));
      assert a == a[..|a| - 1] + [a[|a| - 1]];
    }
  }

  lemma {:induction false} KeepHead(a: Entries, test: Entry -> bool)
    requires a != []
    ensures Keep(a, test) == (if test(a[0]) then [a[0]] else []) + Keep(a[1..], test)
  {
    if |a| > 1 {
      var init, tail := a[..|a| - 1], a[1..];
      KeepHead(init, test);
      assert tail[..|tail| - 1] == init[1..] && tail[|tail| - 1] == a[|a| - 1];
    }
  }

  /** Inserting keeps the entries of one key in order of arrival. */
  lemma {:induction false} InsertIsStable(e: Entry, a: Entries, k: Key)
    requires InOrder(a)
    ensures SameKeyAs(Insert(e, a), k) == SameKeyAs(a, k) + (if e.Key() == k then [e] else [])
  {
    var test := (x: Entry) => x.Key() == k;
    if a == [] {
      KeepHead([e], test);
    } else if Before(e, a[0]) {
      KeepHead([e] + a, test);
      assert ([e] + a)[1..] == a;
      if e.Key() == k {
        forall x | x in a ensures x.Key() != k {
          var j :| 0 <= j < |a| && a[j] == x;
          OrderTransitive(e, a[0], a[j]);
        }
        KeepNone(a, test);
      }
    } else {
      InsertIsStable(e, a[1..], k);
      KeepHead(a, test);
      var r := Insert(e, a);
      KeepHead(r, test);
      assert r[1..] == Insert(e, a[1..]);
    }
  }

  lemma {:induction false} KeepNone(a: Entries, test: Entry -> bool)
    requires forall x | x in a :: !test(x)
    ensures Keep(a, test) == []
  {
    if a != [] {
      KeepNone(a[..|a| - 1], test);
    }
  }

  /** The sort keeps the entries of one key in their order. */
  lemma {:induction false} SortedIsStable(a: Entries, k: Key)
    ensures SameKeyAs(Sorted(a), k) == SameKeyAs(a, k)
  {
    if a != [] {
      var init, last := a[..|a| - 1], a[|a| - 1];
      SortedIsStable(init, k);
      SortedInOrder(init);
      InsertIsStable(last, Sorted(init), k);
    }
  }

  lemma TailsAgree(a: Entries, b: Entries, q: Key)
    requires a != [] && b != [] && a[0] == b[0] && SameKeyAs(a, q) == SameKeyAs(b, q)
    ensures SameKeyAs(a[1..], q) == SameKeyAs(b[1..], q)
  {
    var head := if a[0].Key() == q then [a[0]] else [];
    KeepHead(a, (e: Entry) => e.Key() == q);
    KeepHead(b, (e: Entry) => e.Key() == q);
    hide Keep;
    assert head + SameKeyAs(a[1..], q) == head + SameKeyAs(b[1..], q);
    assert SameKeyAs(a[1..], q) == (head + SameKeyAs(a[1..], q))[|head|..];
    assert SameKeyAs(b[1..], q) == (head + SameKeyAs(b[1..], q))[|head|..];
  }

  lemma HeadsAgree(a: Entries, b: Entries)
    requires a != [] && b != [] && InOrder(a) && InOrder(b) && forall k :: SameKeyAs(a, k) == SameKeyAs(b, k)
    ensures a[0] == b[0]
  {
    FirstIsLeast(a, b);
    FirstIsLeast(b, a);
    var k := a[0].Key();
    assert b[0].Key() == k;
    KeepHead(a, (e: Entry) => e.Key() == k);
    KeepHead(b, (e: Entry) => e.Key() == k);
    hide Keep;
    assert SameKeyAs(a, k)[0] == a[0] && SameKeyAs(b, k)[0] == b[0];
  }

  /** There is only one stable sort: lists in order with the same entries for every key are equal. */
  lemma {:induction false} StableSortIsUnique(a: Entries, b: Entries)
    requires InOrder(a) && InOrder(b) && forall k :: SameKeyAs(a, k) == SameKeyAs(b, k)
    ensures a == b
  {
    EmptyTogether(a, b);
    if a != [] {
      HeadsAgree(a, b);
      forall q ensures SameKeyAs(a[1..], q) == SameKeyAs(b[1..], q) {
        TailsAgree(a, b, q);
      }
      hide SameKeyAs, Before;
      StableSortIsUnique(a[1..], b[1..]);
      assert a == [a[0]] + a[1..] && b == [b[0]] + b[1..];
    }
  }

  lemma EmptyTogether(a: Entries, b: Entries)
    requires forall k :: SameKeyAs(a, k) == SameKeyAs(b, k)
    ensures a == [] <==> b == []
  {
    SameMembers(a, b);
    SameMembers(b, a);
    if a != [] {
      assert a[0] in a;
    }
    if b != [] {
      assert b[0] in b;
    }
  }

  lemma SameMembers(a: Entries, b: Entries)
    requires forall k :: SameKeyAs(a, k) == SameKeyAs(b, k)
    ensures forall x | x in b :: x in a
  {
    forall x | x in b ensures x in a {
      assert x in SameKeyAs(b, x.Key());
    }
  }

  lemma FirstIsLeast(a: Entries, b: Entries)
    requires a != [] && b != [] && InOrder(a) && forall k :: SameKeyAs(a, k) == SameKeyAs(b, k)
    ensures !Before(b[0], a[0])
  {
    assert b[0] in SameKeyAs(b, b[0].Key());
    assert b[0] in SameKeyAs(a, b[0].Key());
    var j :| 0 <= j < |a| && a[j] == b[0];
  }

  /** Lists with distinct keys and the same members are written in the same order. */
  lemma SameMembersSameOrder(a: Entries, b: Entries)
    requires Distinct(a) && Distinct(b) && forall e :: e in a <==> e in b
    ensures Sorted(a) == Sorted(b)
  {
    forall k ensures SameKeyAs(Sorted(a), k) == SameKeyAs(Sorted(b), k) {
      SortedIsStable(a, k);
      SortedIsStable(b, k);
      OneOfEachKey(a, k);
      OneOfEachKey(b, k);
    }
    SortedInOrder(a);
    SortedInOrder(b);
    StableSortIsUnique(Sorted(a), Sorted(b));
  }

  lemma {:induction false} OneOfEachKey(a: Entries, k: Key)
    requires Distinct(a)
    ensures forall e | e in a && e.Key() == k :: SameKeyAs(a, k) == [e]
    ensures (forall e | e in a :: e.Key() != k) ==> SameKeyAs(a, k) == []
  {
    if a != [] {
      var init, last := a[..|a| - 1], a[|a| - 1];
      assert a == init + [last];
      OneOfEachKey(init, k);
      if last.Key() == k {
        assert forall e | e in init :: e.Key() != k;
      }
    }
  }

  lemma SortedIsDistinct(a: Entries)
    requires Distinct(a)
    ensures Distinct(Sorted(a))
  {
    var s := Sorted(a);
    forall i, j | 0 <= i < j < |s| ensures s[i].Key() != s[j].Key() {
      var k := s[i].Key();
      SortedIsStable(a, k);
      SortedInOrder(a);
      assert s[i] in a;
      OneOfEachKey(a, k);
      if s[j].Key() == k {
        TwoOfAKey(s, i, j);
      }
    }
  }

  lemma {:induction false} TwoOfAKey(a: Entries, i: nat, j: nat)
    requires i < j < |a| && a[i].Key() == a[j].Key()
    ensures |SameKeyAs(a, a[i].Key())| >= 2
  {
    var init, last := a[..|a| - 1], a[|a| - 1];
    if j < |a| - 1 {
      TwoOfAKey(init, i, j);
    } else {
      assert init[i] in init;
      assert init[i] in SameKeyAs(init, a[i].Key());
    }
  }

  // Round trips.

  lemma EntryRoundTrip(e: Entry, rest: Bytes)
    ensures GetEntry(PutEntry(e) + rest) == e
  {
    RoundTrip16(e.tag);
    RoundTrip16(e.perm);
    RoundTrip32(e.id);
    var b := PutEntry(e) + rest;
    assert b[0] == Put16(e.tag)[0] && b[1] == Put16(e.tag)[1] && b[2] == Put16(e.perm)[0] && b[3] == Put16(e.perm)[1];
    assert b[4] == Put32(e.id)[0] && b[5] == Put32(e.id)[1] && b[6] == Put32(e.id)[2] && b[7] == Put32(e.id)[3];
  }

  lemma FirstRoundTrip(e: Entry, rest: Bytes)
    ensures |PutEntry(e) + rest| == 8 + |rest|
    ensures GetEntries(PutEntry(e) + rest) ==
            if !Within(e.perm, 7) then Failure(InvalidPermissions)
            else if GetEntries(rest).Failure? then GetEntries(rest)
            else Success([e] + GetEntries(rest).value)
  {
    EntryLength(e);
    EntryRoundTrip(e, rest);
    hide Within, GetEntry, PutEntry;
    assert (PutEntry(e) + rest)[8..] == rest;
  }

  predicate AllSmall(a: Entries) {
    forall e | e in a :: Within(e.perm, 7)
  }

  lemma SmallHead(a: Entries)
    requires a != []
    ensures AllSmall(a) <==> Within(a[0].perm, 7) && AllSmall(a[1..])
    ensures [a[0]] + a[1..] == a
  {
    hide Within;
    assert a == [a[0]] + a[1..];
  }

  lemma {:induction false} EntriesRoundTrip(a: Entries)
    ensures |PutEntries(a)| == 8 * |a|
    ensures GetEntries(PutEntries(a)) == if AllSmall(a) then Success(a) else Failure(InvalidPermissions)
  {
    if a == [] {
      assert GetEntries([]) == Success([]);
    } else {
      FirstRoundTrip(a[0], PutEntries(a[1..]));
      SmallHead(a);
      assert PutEntries(a) == PutEntry(a[0]) + PutEntries(a[1..]);
      hide Within, GetEntries, PutEntry, PutEntries, AllSmall;
      EntriesRoundTrip(a[1..]);
    }
  }

  lemma EntryLength(e: Entry)
    ensures |PutEntry(e)| == 8
  {
  }

  /** Reading what was written gives the entries in their stable order, if no permission exceeds the
      three bits; otherwise the reader refuses. */
  lemma ParseEncode(a: Entries)
    ensures Parse(Encode(a)) ==
            if forall e | e in a :: Within(e.perm, 7) then Success(Sorted(a)) else Failure(InvalidPermissions)
  {
    var b := Encode(a);
    hide Within, PutEntries, GetEntries, Sorted, Get32, Put32, InOrder;
    Header(PutEntries(Sorted(a)));
    EntriesRoundTrip(Sorted(a));
    SortedInOrder(a);
  }

  lemma Header(rest: Bytes)
    ensures var b := Put32(VERSION) + rest;
            |b| == 4 + |rest| && Get32(b[0], b[1], b[2], b[3]) == VERSION && b[4..] == rest
  {
    var v := Put32(VERSION);
    assert |v| == 4;
    RoundTrip32(VERSION);
    hide Put32, Get32;
    var b := v + rest;
    assert b[0] == v[0] && b[1] == v[1] && b[2] == v[2] && b[3] == v[3] && b[4..] == rest;
  }
}

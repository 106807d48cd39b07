/**
 The listings of `Pending` and `Leases`: all entries of a table, by time of creation.
 */
module Listings {
  import opened Approval

  /** `ids` names each of `some` once, and the items are their entries in the table. */
  ghost predicate Lists<T>(table: map<Id, T>, some: set<Id>, ids: seq<Id>, items: seq<T>) {
    && |ids| == |items|
    && (forall id :: id in ids <==> id in some)
    && (forall i, j | 0 <= i < j < |ids| :: ids[i] != ids[j])
    && forall i | 0 <= i < |ids| :: ids[i] in table && items[i] == table[ids[i]]
  }

  ghost predicate InOrder<T>(items: seq<T>, created: T -> Time) {
    forall i, j | 0 <= i < j < |items| :: created(items[i]) <= created(items[j])
  }

  function InsertAt<T>(s: seq<T>, k: nat, x: T): (r: seq<T>)
    requires k <= |s|
    ensures |r| == |s| + 1
    ensures forall i | 0 <= i < |r| :: r[i] == if i < k then s[i] else if i == k then x else s[i - 1]
  {
    s[..k] + [x] + s[k..]
  }

  /** Where an item goes in an ordered list. */
  method Place<T>(items: seq<T>, created: T -> Time, item: T) returns (k: nat)
    requires InOrder(items, created)
    ensures k <= |items| && InOrder(InsertAt(items, k, item), created)
  {
    k := |items|;
    while k > 0 && created(item) < created(items[k - 1])
      invariant k <= |items|
      invariant forall i | k <= i < |items| :: created(item) <= created(items[i])
    {
      k := k - 1;
    }
    hide InsertAt;
  }

  lemma InsertedMembers(ids: seq<Id>, k: nat, id: Id, other: Id)
    requires k <= |ids|
    ensures other in InsertAt(ids, k, id) <==> other in ids || other == id
  {
    assert ids == ids[..k] + ids[k..];
  }

  lemma Placed<T>(table: map<Id, T>, some: set<Id>, ids: seq<Id>, items: seq<T>, k: nat, id: Id)
    requires id in table && id !in some && k <= |items| && Lists(table, some, ids, items)
    ensures Lists(table, some + {id}, InsertAt(ids, k, id), InsertAt(items, k, table[id]))
  {
    forall other ensures other in InsertAt(ids, k, id) <==> other in some + {id} {
      InsertedMembers(ids, k, id, other);
    }
    assert forall i | 0 <= i < |ids| :: ids[i] in ids;
    hide InsertAt;
  }

  /** All entries, in order of creation; entries of one time come in any order. */
  method SortedByTime<T>(table: map<Id, T>, created: T -> Time) returns (items: seq<T>, ghost ids: seq<Id>)
    ensures Lists(table, table.Keys, ids, items) && InOrder(items, created)
  {
    items, ids := [], [];
    var todo := table.Keys;
    while todo != {}
      invariant todo <= table.Keys
      invariant Lists(table, table.Keys - todo, ids, items) && InOrder(items, created)
    {
      var id :| id in todo;
      var k := Place(items, created, table[id]);
      Placed(table, table.Keys - todo, ids, items, k, id);
      assert table.Keys - todo + {id} == table.Keys - (todo - {id});
      hide Lists, InOrder, InsertAt;
      ids := InsertAt(ids, k, id);
      items := InsertAt(items, k, table[id]);
      todo := todo - {id};
    }
  }
}

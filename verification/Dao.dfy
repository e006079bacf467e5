/**
 RandomTextDao: the `random_texts` table behind Room's generated DAO.

 The table is a map from primary key to row. The key is auto-generated
 (`@PrimaryKey(autoGenerate = true)`): Room binds an id of 0 as NULL, and SQLite's
 AUTOINCREMENT then gives one more than the largest id the table has ever held,
 which `sequence` records (deleting rows never lowers it).

 A statement can fail inside SQLite; each mutating method takes that failure as a
 parameter `fault`: when it is `Some(e)` the statement is rolled back and `e` is thrown.
 */
module Dao {
  import opened Models

  /** Every row is stored under its own id. */
  ghost predicate KeysMatch(rows: map<int, RandomText>)
  {
    forall id :: id in rows ==> rows[id].id == id
  }

  /**
   `list` is what `SELECT * FROM random_texts ORDER BY id DESC` returns for `rows`:
   only stored rows, every stored row, ids strictly descending.
   */
  ghost predicate IsListing(list: seq<RandomText>, rows: map<int, RandomText>)
  {
    && (forall i :: 0 <= i < |list| ==> list[i].id in rows && rows[list[i].id] == list[i])
    && (forall id :: id in rows ==> rows[id] in list)
    && (forall i, j :: 0 <= i < j < |list| ==> list[i].id > list[j].id)
  }

  /** The head of a listing holds the largest id of the table. */
  lemma ListingHead(list: seq<RandomText>, rows: map<int, RandomText>)
    requires KeysMatch(rows)
    requires IsListing(list, rows) && list != []
    ensures list[0].id in rows && rows[list[0].id] == list[0]
    ensures forall id :: id in rows ==> id <= list[0].id
  {
  }

  /** Without its head, a listing lists the table without the head's row. */
  lemma ListingTail(list: seq<RandomText>, rows: map<int, RandomText>)
    requires KeysMatch(rows)
    requires IsListing(list, rows) && list != []
    ensures IsListing(list[1..], rows - {list[0].id})
  {
  }

  /** The ordered listing of a table is unique: any two listings of the same rows are equal. */
  lemma {:induction false} ListingUnique(a: seq<RandomText>, b: seq<RandomText>, rows: map<int, RandomText>)
    requires KeysMatch(rows)
    requires IsListing(a, rows) && IsListing(b, rows)
    ensures a == b
    decreases |a|
  {
    ListingEmptyIff(a, rows);
    ListingEmptyIff(b, rows);
    if a != [] && b != [] {
      ListingHead(a, rows);
      ListingHead(b, rows);
      assert a[0] == b[0];
      ListingTail(a, rows);
      ListingTail(b, rows);
      ListingUnique(a[1..], b[1..], rows - {a[0].id});
      assert a == [a[0]] + a[1..] && b == [b[0]] + b[1..];
    }
  }

  /** A listing is empty exactly when the table is. */
  lemma ListingEmptyIff(list: seq<RandomText>, rows: map<int, RandomText>)
    requires IsListing(list, rows)
    ensures list == [] <==> rows == map[]
  {
    if list != [] {
      assert list[0].id in rows;
    }
    if rows != map[] {
      assert (forall id :: id !in rows) ==> rows == map[];
      var id :| id in rows;
      assert rows[id] in list;
    }
  }

  /** A non-empty set has a member. */
  lemma MemberExists(s: set<int>)
    requires s != {}
    ensures exists x :: x in s
  {
    assert (forall x :: x !in s) ==> s == {};
  }

  /** The largest key of a non-empty key set (the head of ORDER BY id DESC). */
  method MaxKey(keys: set<int>) returns (m: int)
    requires keys != {}
    ensures m in keys && forall k :: k in keys ==> k <= m
  {
    MemberExists(keys);
    m :| m in keys;
    var rest := keys - {m};
    while rest != {}
      invariant rest <= keys && m in keys
      invariant forall k :: k in keys && k !in rest ==> k <= m
      decreases rest
    {
      MemberExists(rest);
      var k :| k in rest;
      if k > m {
        m := k;
      }
      rest := rest - {k};
    }
  }

  class RandomTextDao {
    /** The table: primary key to row. */
    var rows: map<int, RandomText>
    /** SQLite's `sqlite_sequence` entry for the table: the largest id ever stored. */
    var sequence: int

    ghost predicate Valid()
      reads this
    {
      KeysMatch(rows) && forall id :: id in rows ==> id <= sequence
    }

    /** A fresh, empty table. */
    constructor ()
      ensures Valid() && rows == map[] && sequence == 0
    {
      rows := map[];
      sequence := 0;
    }

    /** The id an insert of `item` stores it under: its own, or a generated one when it is 0. */
    function KeyFor(item: RandomText): (key: int)
      reads this
      requires Valid()
      ensures item.id != 0 ==> key == item.id
      ensures item.id == 0 ==> key !in rows && forall id :: id in rows ==> id < key
    {
      if item.id == 0 then sequence + 1 else item.id
    }

    /** `getAll()`: every row, by id descending. */
    method GetAll() returns (list: seq<RandomText>)
      requires Valid()
      ensures IsListing(list, rows)
    {
      list := [];
      var rest := rows.Keys;
      while rest != {}
        invariant rest <= rows.Keys
        invariant forall i :: 0 <= i < |list| ==> list[i].id in rows && list[i].id !in rest && rows[list[i].id] == list[i]
        invariant forall id :: id in rows && id !in rest ==> rows[id] in list
        invariant forall i, j :: 0 <= i < j < |list| ==> list[i].id > list[j].id
        invariant forall i, k :: 0 <= i < |list| && k in rest ==> k < list[i].id
        decreases rest
      {
        var top := MaxKey(rest);
        list := list + [rows[top]];
        rest := rest - {top};
      }
    }

    /** `insert(item)` with OnConflictStrategy.REPLACE. */
    method Insert(item: RandomText, fault: Option<Throwable>) returns (outcome: Outcome)
      requires Valid()
      modifies this
      ensures Valid()
      ensures fault.Some? ==> outcome == Threw(fault.value) && rows == old(rows) && sequence == old(sequence)
      ensures fault.None? ==>
                var key := old(KeyFor(item));
                && outcome == Done
                && rows == old(rows)[key := item.(id := key)]
                && sequence == (if key > old(sequence) then key else old(sequence))
      ensures fault.None? ==>
                |rows| == if old(KeyFor(item)) in old(rows) then |old(rows)| else |old(rows)| + 1
      ensures forall id :: id in old(rows) && id != old(KeyFor(item)) ==> id in rows && rows[id] == old(rows)[id]
    {
      if fault.Some? {
        return Threw(fault.value);
      }
      var key := KeyFor(item);
      rows := rows[key := item.(id := key)];
      if key > sequence {
        sequence := key;
      }
      outcome := Done;
    }

    /** `deleteAll()`: `DELETE FROM random_texts`. */
    method DeleteAll(fault: Option<Throwable>) returns (outcome: Outcome)
      requires Valid()
      modifies this
      ensures Valid() && sequence == old(sequence)
      ensures fault.Some? ==> outcome == Threw(fault.value) && rows == old(rows)
      ensures fault.None? ==> outcome == Done && rows == map[]
    {
      if fault.Some? {
        return Threw(fault.value);
      }
      rows := map[];
      outcome := Done;
    }

    /** `delete(text)`: `@Delete` removes the row whose primary key is `text.id`. */
    method Delete(text: RandomText, fault: Option<Throwable>) returns (outcome: Outcome)
      requires Valid()
      modifies this
      ensures Valid() && sequence == old(sequence)
      ensures fault.Some? ==> outcome == Threw(fault.value) && rows == old(rows)
      ensures fault.None? ==> outcome == Done && rows == old(rows) - {text.id}
      ensures text.id !in old(rows) ==> rows == old(rows)
      ensures forall id :: id in old(rows) && id != text.id ==> id in rows && rows[id] == old(rows)[id]
    {
      if fault.Some? {
        return Threw(fault.value);
      }
      rows := rows - {text.id};
      outcome := Done;
    }
  }

  /** A row just inserted is in the next listing, under the id the insert gave it. */
  method InsertThenGetAll(dao: RandomTextDao, item: RandomText) returns (list: seq<RandomText>)
    requires dao.Valid()
    modifies dao
    ensures dao.Valid()
    ensures item.(id := old(dao.KeyFor(item))) in list
    ensures IsListing(list, dao.rows)
  {
    ghost var key := dao.KeyFor(item);
    var _ := dao.Insert(item, None);
    list := dao.GetAll();
    assert dao.rows[key] == item.(id := key);
  }

  /** After deleteAll, the listing is empty. */
  method DeleteAllThenGetAll(dao: RandomTextDao) returns (list: seq<RandomText>)
    requires dao.Valid()
    modifies dao
    ensures dao.Valid() && list == []
  {
    var _ := dao.DeleteAll(None);
    list := dao.GetAll();
    ListingEmptyIff(list, dao.rows);
  }
}

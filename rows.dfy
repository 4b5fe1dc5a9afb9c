/**
 * Bulk writes on the item table: inserting a batch of new rows under fresh ids
 * (`items.create`, `createMany`) and deleting the rows of one challan
 * (`deleteMany`).
 */
module Rows {
  import opened Entities
  import opened Ordering
  import opened Billing

  /** The ids listed in a sequence. */
  function IdSet(ids: seq<Id>): set<Id>
  {
    set x | x in ids
  }

  /** A sequence of ids has at most as many distinct ids as entries, and exactly as many when none repeats. */
  lemma {:induction false} IdSetCard(ids: seq<Id>)
    ensures |IdSet(ids)| <= |ids|
    ensures |IdSet(ids)| == |ids| <==> Distinct(ids)
    decreases |ids|
  {
    if ids != [] {
      var init := ids[..|ids| - 1];
      var x := ids[|ids| - 1];
      IdSetCard(init);
      assert IdSet(ids) == IdSet(init) + {x} by {
        forall y ensures y in IdSet(ids) <==> y in IdSet(init) + {x} {
          if y in ids {
            var k :| 0 <= k < |ids| && ids[k] == y;
            if k < |init| { assert init[k] == y; }
          }
          if y in init {
            var k :| 0 <= k < |init| && init[k] == y;
            assert ids[k] == y;
          }
        }
      }
      if x in init {
        var k :| 0 <= k < |init| && init[k] == x;
        assert ids[k] == ids[|ids| - 1];
        assert !Distinct(ids);
        assert IdSet(ids) == IdSet(init);
      } else {
        assert Distinct(ids) <==> Distinct(init) by {
          if Distinct(init) {
            forall i, j | 0 <= i < j < |ids| ensures ids[i] != ids[j] {
              if j < |init| {
                assert init[i] == ids[i] && init[j] == ids[j];
              } else {
                assert ids[i] == init[i];
              }
            }
          }
          if Distinct(ids) {
            forall i, j | 0 <= i < j < |init| ensures init[i] != init[j] {
              assert init[i] == ids[i] && init[j] == ids[j];
            }
          }
        }
      }
    }
  }

  /** A subset is no larger, and a subset as large as its superset is the whole of it. */
  lemma SubsetCard(a: set<Id>, b: set<Id>)
    requires a <= b
    ensures |a| <= |b|
    ensures |a| == |b| ==> a == b
  {
    assert b == a + (b - a);
    assert |b| == |a| + |b - a|;
    if |a| == |b| {
      assert |b - a| == 0;
      assert b - a == {};
    }
  }

  /** The table with `rows[k]` inserted under `ids[k]`, in order. */
  function Insert(items: map<Id, ChallanItem>, ids: seq<Id>, rows: seq<ChallanItem>): map<Id, ChallanItem>
    requires |ids| == |rows|
    decreases |ids|
  {
    if ids == [] then items
    else Insert(items, ids[..|ids| - 1], rows[..|rows| - 1])[ids[|ids| - 1] := rows[|rows| - 1]]
  }

  /** Inserting adds exactly the listed ids. */
  lemma {:induction false} InsertKeys(items: map<Id, ChallanItem>, ids: seq<Id>, rows: seq<ChallanItem>)
    requires |ids| == |rows|
    ensures Insert(items, ids, rows).Keys == items.Keys + IdSet(ids)
    decreases |ids|
  {
    if ids != [] {
      var n := |ids| - 1;
      InsertKeys(items, ids[..n], rows[..n]);
      assert IdSet(ids) == IdSet(ids[..n]) + {ids[n]} by {
        forall y | y in IdSet(ids) ensures y in IdSet(ids[..n]) + {ids[n]} {
          var k :| 0 <= k < |ids| && ids[k] == y;
          if k < n { assert ids[..n][k] == y; }
        }
      }
    }
  }

  /** Under distinct ids, each listed id holds its own row. */
  lemma {:induction false} InsertNew(items: map<Id, ChallanItem>, ids: seq<Id>, rows: seq<ChallanItem>, k: nat)
    requires |ids| == |rows| && Distinct(ids) && k < |ids|
    ensures ids[k] in Insert(items, ids, rows) && Insert(items, ids, rows)[ids[k]] == rows[k]
    decreases |ids|
  {
    var n := |ids| - 1;
    if k < n {
      var init := ids[..n];
      assert Distinct(init) by {
        forall i, j | 0 <= i < j < |init| ensures init[i] != init[j] {
          assert init[i] == ids[i] && init[j] == ids[j];
        }
      }
      assert init[k] == ids[k] && rows[..n][k] == rows[k];
      InsertNew(items, init, rows[..n], k);
      assert ids[k] != ids[n];
    }
  }

  /** Rows under ids that are not listed stay as they were. */
  lemma {:induction false} InsertOld(items: map<Id, ChallanItem>, ids: seq<Id>, rows: seq<ChallanItem>, i: Id)
    requires |ids| == |rows| && i in items && i !in IdSet(ids)
    ensures i in Insert(items, ids, rows) && Insert(items, ids, rows)[i] == items[i]
    decreases |ids|
  {
    if ids != [] {
      var n := |ids| - 1;
      assert i !in IdSet(ids[..n]);
      InsertOld(items, ids[..n], rows[..n], i);
    }
  }

  /**
   * Inserting under distinct ids adds exactly those ids, each holding its
   * row, and leaves every other row as it was.
   */
  lemma InsertSpec(items: map<Id, ChallanItem>, ids: seq<Id>, rows: seq<ChallanItem>)
    requires |ids| == |rows| && Distinct(ids)
    ensures Insert(items, ids, rows).Keys == items.Keys + IdSet(ids)
    ensures forall k :: 0 <= k < |ids| ==> Insert(items, ids, rows)[ids[k]] == rows[k]
    ensures forall i :: i in items && i !in IdSet(ids) ==> Insert(items, ids, rows)[i] == items[i]
  {
    InsertKeys(items, ids, rows);
    forall k | 0 <= k < |ids| ensures Insert(items, ids, rows)[ids[k]] == rows[k] {
      InsertNew(items, ids, rows, k);
    }
    forall i | i in items && i !in IdSet(ids) ensures Insert(items, ids, rows)[i] == items[i] {
      InsertOld(items, ids, rows, i);
    }
  }

  /** `deleteMany({ where: { challanId } })`: the table without the items of challan `c`. */
  function DropItems(items: map<Id, ChallanItem>, c: Id): (r: map<Id, ChallanItem>)
    ensures r.Keys == items.Keys - ItemsOf(items, c)
    ensures ItemsOf(r, c) == {}
  {
    map i | i in items && items[i].challanId != c :: items[i]
  }

  /** Every row belongs to challan `c`. */
  predicate AllOf(rows: seq<ChallanItem>, c: Id)
  {
    forall k :: 0 <= k < |rows| ==> rows[k].challanId == c
  }

  /**
   * Deleting a challan's items and inserting a batch of its rows under fresh
   * ids leaves it with exactly the new rows, and every other challan's items
   * as they were.
   */
  lemma ReplaceItems(items: map<Id, ChallanItem>, c: Id, ids: seq<Id>, rows: seq<ChallanItem>)
    requires |ids| == |rows| && Distinct(ids) && AllOf(rows, c)
    requires forall k :: 0 <= k < |ids| ==> ids[k] !in items
    ensures var r := Insert(DropItems(items, c), ids, rows);
      && r.Keys == items.Keys - ItemsOf(items, c) + IdSet(ids)
      && ItemsOf(r, c) == IdSet(ids)
      && (forall k :: 0 <= k < |ids| ==> r[ids[k]] == rows[k])
      && (forall d :: d != c ==> ItemsOf(r, d) == ItemsOf(items, d))
      && (forall i :: i in items && items[i].challanId != c ==> r[i] == items[i])
  {
    var base := DropItems(items, c);
    var r := Insert(base, ids, rows);
    InsertSpec(base, ids, rows);
    forall i | i in r ensures (r[i].challanId == c <==> i in IdSet(ids)) {
      if i in IdSet(ids) {
        var k :| 0 <= k < |ids| && ids[k] == i;
        assert r[i] == rows[k];
      }
    }
    forall d | d != c ensures ItemsOf(r, d) == ItemsOf(items, d) {
      forall i | i in IdSet(ids) ensures r[i].challanId == c {
        var k :| 0 <= k < |ids| && ids[k] == i;
        assert r[i] == rows[k];
      }
    }
  }
}

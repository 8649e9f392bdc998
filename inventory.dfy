/**
 * Inventory reservation (`reserveInventory`, golang/checkout.go:398-427) and
 * the choice of warehouse (`getWarehouseForUser`, 381-396, with the region
 * table built at 63-68).
 */
module Inventory {
  import opened Wrappers
  import opened Records

  /** A row of `inventory`. */
  datatype Stock = Stock(available: int, reserved: int)

  /** `inventory`, keyed by (product, warehouse). */
  type InventoryTable = map<(string, string), Stock>

  /** No row has more reserved than available. */
  predicate NoOversell(inv: InventoryTable)
  {
    forall k :: k in inv ==> inv[k].reserved <= inv[k].available
  }

  const US_EAST_WAREHOUSE := "11111111-1111-1111-1111-111111111111"
  const US_WEST_WAREHOUSE := "22222222-2222-2222-2222-222222222222"
  const EU_WEST_WAREHOUSE := "33333333-3333-3333-3333-333333333333"
  const AP_SOUTHEAST_WAREHOUSE := "44444444-4444-4444-4444-444444444444"

  /** The handler's fixed region → warehouse table. */
  const WAREHOUSE_BY_REGION: map<string, string> := map[
    "us-east" := US_EAST_WAREHOUSE,
    "us-west" := US_WEST_WAREHOUSE,
    "eu-west" := EU_WEST_WAREHOUSE,
    "ap-southeast" := AP_SOUTHEAST_WAREHOUSE]

  /**
   * `getWarehouseForUser`: the warehouse of the user's region; the us-east one
   * when the user has no row or the region is not in the table.
   */
  function WarehouseFor(userRegions: map<string, string>, userId: string): (wh: string)
    ensures userId in userRegions && userRegions[userId] in WAREHOUSE_BY_REGION ==>
      wh == WAREHOUSE_BY_REGION[userRegions[userId]]
    ensures !(userId in userRegions && userRegions[userId] in WAREHOUSE_BY_REGION) ==>
      wh == US_EAST_WAREHOUSE
    ensures wh in WAREHOUSE_BY_REGION.Values
  {
    assert WAREHOUSE_BY_REGION["us-east"] == US_EAST_WAREHOUSE;
    if userId !in userRegions then WAREHOUSE_BY_REGION["us-east"]
    else if userRegions[userId] in WAREHOUSE_BY_REGION then WAREHOUSE_BY_REGION[userRegions[userId]]
    else WAREHOUSE_BY_REGION["us-east"]
  }

  /** The total quantity of a product over the lines. */
  function QtyOf(lines: seq<CartLine>, productId: string): int
    decreases |lines|
  {
    if lines == [] then 0
    else (if lines[0].productId == productId then lines[0].qty else 0) + QtyOf(lines[1..], productId)
  }

  /**
   * The loop of `reserveInventory`, line by line in cart order: `None` when a
   * row is missing or has less free stock than the line's quantity, otherwise
   * the table with every reservation made.
   */
  function Reserve(inv: InventoryTable, lines: seq<CartLine>, wh: string): Option<InventoryTable>
    decreases |lines|
  {
    if lines == [] then Some(inv)
    else
      var key := (lines[0].productId, wh);
      if key !in inv || inv[key].available - inv[key].reserved < lines[0].qty then None
      else Reserve(inv[key := inv[key].(reserved := inv[key].reserved + lines[0].qty)], lines[1..], wh)
  }

  /**
   * A successful reservation keeps the rows, never changes `available`, and
   * raises each row of the chosen warehouse by exactly the quantity of its
   * product over the lines; rows of other warehouses are untouched.
   */
  lemma {:induction false} ReserveEffect(inv: InventoryTable, lines: seq<CartLine>, wh: string)
    requires Reserve(inv, lines, wh).Some?
    ensures var inv' := Reserve(inv, lines, wh).value;
      && inv'.Keys == inv.Keys
      && forall k :: k in inv ==>
           && inv'[k].available == inv[k].available
           && inv'[k].reserved == inv[k].reserved + (if k.1 == wh then QtyOf(lines, k.0) else 0)
  {
    if lines != [] {
      var key := (lines[0].productId, wh);
      var inv1 := inv[key := inv[key].(reserved := inv[key].reserved + lines[0].qty)];
      ReserveEffect(inv1, lines[1..], wh);
    }
  }

  /** No oversell: a successful reservation keeps `reserved <= available` on every row. */
  lemma {:induction false} ReserveKeepsNoOversell(inv: InventoryTable, lines: seq<CartLine>, wh: string)
    requires NoOversell(inv)
    requires Reserve(inv, lines, wh).Some?
    ensures NoOversell(Reserve(inv, lines, wh).value)
  {
    if lines != [] {
      var key := (lines[0].productId, wh);
      var inv1 := inv[key := inv[key].(reserved := inv[key].reserved + lines[0].qty)];
      ReserveKeepsNoOversell(inv1, lines[1..], wh);
    }
  }

  /**
   * Line `i` finds its row with enough free stock at the moment it is checked,
   * that is after the earlier lines of the same product were reserved.
   */
  predicate FitsAt(inv: InventoryTable, lines: seq<CartLine>, wh: string, i: int)
    requires 0 <= i < |lines|
  {
    var key := (lines[i].productId, wh);
    key in inv && inv[key].available - (inv[key].reserved + QtyOf(lines[..i], lines[i].productId)) >= lines[i].qty
  }

  /** Reserving succeeds exactly when every line fits at the moment it is checked. */
  lemma {:induction false} ReserveSucceedsIff(inv: InventoryTable, lines: seq<CartLine>, wh: string)
    ensures Reserve(inv, lines, wh).Some? <==> forall i :: 0 <= i < |lines| ==> FitsAt(inv, lines, wh, i)
  {
    if lines != [] {
      var key := (lines[0].productId, wh);
      assert lines[..0] == [];
      if key in inv && inv[key].available - inv[key].reserved >= lines[0].qty {
        var inv1 := inv[key := inv[key].(reserved := inv[key].reserved + lines[0].qty)];
        var rest := lines[1..];
        ReserveSucceedsIff(inv1, rest, wh);
        forall j | 0 <= j < |rest|
          ensures FitsAt(inv1, rest, wh, j) <==> FitsAt(inv, lines, wh, j + 1)
        {
          assert lines[..j + 1][1..] == rest[..j];
          assert lines[..j + 1][0] == lines[0];
        }
        assert (forall i :: 0 <= i < |lines| ==> FitsAt(inv, lines, wh, i))
          <==> (forall j :: 0 <= j < |rest| ==> FitsAt(inv1, rest, wh, j)) by {
          if forall j :: 0 <= j < |rest| ==> FitsAt(inv1, rest, wh, j) {
            forall i | 0 <= i < |lines| ensures FitsAt(inv, lines, wh, i) {
              if i > 0 { assert FitsAt(inv1, rest, wh, i - 1); }
            }
          }
        }
      } else {
        assert !FitsAt(inv, lines, wh, 0);
      }
    }
  }

  /** Lines whose products are pairwise distinct (as cart items are, one row per product). */
  predicate DistinctProducts(lines: seq<CartLine>)
  {
    forall i, j :: 0 <= i < j < |lines| ==> lines[i].productId != lines[j].productId
  }

  lemma {:induction false} QtyOfAbsent(lines: seq<CartLine>, productId: string)
    requires forall i :: 0 <= i < |lines| ==> lines[i].productId != productId
    ensures QtyOf(lines, productId) == 0
  {
    if lines != [] {
      QtyOfAbsent(lines[1..], productId);
    }
  }

  /**
   * For a cart with one line per product, reserving succeeds exactly when every
   * line's row exists and has `available - reserved >= qty`.
   */
  lemma ReserveDistinctIff(inv: InventoryTable, lines: seq<CartLine>, wh: string)
    requires DistinctProducts(lines)
    ensures Reserve(inv, lines, wh).Some? <==>
      forall i :: 0 <= i < |lines| ==>
        var key := (lines[i].productId, wh);
        key in inv && inv[key].available - inv[key].reserved >= lines[i].qty
  {
    ReserveSucceedsIff(inv, lines, wh);
    forall i | 0 <= i < |lines|
      ensures QtyOf(lines[..i], lines[i].productId) == 0
    {
      QtyOfAbsent(lines[..i], lines[i].productId);
    }
  }
}

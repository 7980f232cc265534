/** The stock screen (src/pages/Inventory.tsx): the low-stock list, the item
    count, the stock value and the per-row stock badge. */
module Inventory {
  import opened Types
  import opened Seqs
  import opened MockData

  /** An item is low on stock when it is at or below its reorder level: the
      same items whose row carries the Low Stock badge. */
  predicate IsLow(item: InventoryItem)
    ensures IsLow(item) <==> BadgeOf(item) == LowStock
  {
    item.currentStock <= item.reorderLevel
  }

  function LowTest(): InventoryItem -> bool
  {
    (item: InventoryItem) => IsLow(item)
  }

  function InStockTest(): InventoryItem -> bool
  {
    (item: InventoryItem) => !IsLow(item)
  }

  /** `lowStockItems`: the items at or below their reorder level, in list order;
      never more of them than `totalItems`. */
  function LowStockItems(items: seq<InventoryItem>): (r: seq<InventoryItem>)
    ensures |r| <= |items|
    ensures forall x :: x in r <==> x in items && x.currentStock <= x.reorderLevel
  {
    Filter(items, LowTest())
  }

  /** The value held in one item: stock times cost price. */
  function StockValue(item: InventoryItem): int
  {
    item.currentStock * item.costPrice
  }

  /** `totalValue`: the value of all stock, never negative while no stock
      level and no cost price is. */
  function TotalValue(items: seq<InventoryItem>): (v: int)
    ensures (forall k :: 0 <= k < |items| ==> items[k].currentStock >= 0 && items[k].costPrice >= 0) ==> v >= 0
  {
    SumOfNonNegative(items, StockValue);
    SumOf(items, StockValue)
  }

  datatype Badge = LowStock | InStock

  /** The badge on a row of the stock table. */
  function BadgeOf(item: InventoryItem): (b: Badge)
    ensures b == LowStock <==> item.currentStock <= item.reorderLevel
  {
    if item.currentStock <= item.reorderLevel then LowStock else InStock
  }

  /** A row shows the low-stock badge exactly when the item is counted in the low-stock list. */
  lemma BadgeAgreesWithList(items: seq<InventoryItem>, k: nat)
    requires k < |items|
    ensures BadgeOf(items[k]) == LowStock <==> items[k] in LowStockItems(items)
  {
  }

  /** The low-stock list of a concatenation is the lists of its parts, in order. */
  lemma LowStockKeepsOrder(a: seq<InventoryItem>, b: seq<InventoryItem>)
    ensures LowStockItems(a + b) == LowStockItems(a) + LowStockItems(b)
  {
    FilterConcat(a, b, LowTest());
  }

  /** The stock value splits into the value of low items and the value of the rest. */
  lemma TotalValueSplits(items: seq<InventoryItem>)
    ensures TotalValue(items) == TotalValue(LowStockItems(items)) + TotalValue(Filter(items, InStockTest()))
  {
    SumOfPartition(items, StockValue, LowTest(), InStockTest());
  }

  /** On the demo stock only the tomatoes are low. */
  lemma MockLowStock()
    ensures LowStockItems(MockInventoryItems) == [MockInventoryItems[2]]
  {
    var items := MockInventoryItems;
    forall k | 0 <= k < |items| ensures LowTest()(items[k]) <==> k == 2 {
    }
    FilterOnly(items, LowTest(), 2);
  }

  /** The demo stock is worth 18770. */
  lemma MockTotalValue()
    ensures TotalValue(MockInventoryItems) == 18770
  {
    var items := MockInventoryItems;
    assert items == items[..2] + items[2..];
    SumOfConcat(items[..2], items[2..], StockValue);
    assert items[..2][1..] == [items[1]];
    assert SumOf(items[..2], StockValue) == 15000;
    assert items[2..][1..] == items[3..];
    assert items[3..][1..] == [items[4]];
    assert SumOf(items[2..], StockValue) == 3770;
  }
}

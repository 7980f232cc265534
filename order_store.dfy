/** The client-side order store (src/store/orderStore.ts): the waiter's draft
    order (`currentOrder`) and the list of submitted orders (`orders`). Each
    action rewrites the fields; the list computations inside the actions are
    the functions before the class. */
module OrderStore {
  import opened Types
  import opened Seqs

  /** The part of the draft (`Partial<Order>`) that the store reads and writes:
      its lines and its subtotal, both of which may be absent. */
  datatype Draft = Draft(items: Option<seq<OrderItem>>, subtotal: Option<int>)

  /** The sum of the price adjustments of a line's selected modifiers; no list counts as 0. */
  function ModifierTotal(mods: Option<seq<SelectedModifier>>): int
  {
    match mods
    case None => 0
    case Some(ms) => SumOf(ms, (m: SelectedModifier) => m.priceAdjustment)
  }

  /** The price of one unit of a line: the snapshot price plus its modifier adjustments. */
  function UnitPrice(line: OrderItem): int
  {
    line.price + ModifierTotal(line.selectedModifiers)
  }

  function LineTotal(line: OrderItem): int
  {
    UnitPrice(line) * line.quantity
  }

  /** Σ (price + Σ priceAdjustment) × quantity over the lines: never negative
      while no line's total is. */
  function Subtotal(lines: seq<OrderItem>): (total: int)
    ensures (forall k :: 0 <= k < |lines| ==> LineTotal(lines[k]) >= 0) ==> total >= 0
  {
    SumOfNonNegative(lines, LineTotal);
    SumOf(lines, LineTotal)
  }

  /** Two lines are the same dish when the menu item and the whole selection,
      in order, agree (the source compares the selections by their JSON text). */
  predicate SameDish(a: OrderItem, b: OrderItem)
  {
    a.menuItemId == b.menuItemId && a.selectedModifiers == b.selectedModifiers
  }

  /** `j` is the first line that is the same dish as `item`. */
  predicate FirstSameDish(lines: seq<OrderItem>, item: OrderItem, j: int)
  {
    0 <= j < |lines| && SameDish(lines[j], item) &&
    forall k :: 0 <= k < j ==> !SameDish(lines[k], item)
  }

  /** `findIndex`: the first line that is the same dish as `item`, or -1. */
  function FindSameDish(lines: seq<OrderItem>, item: OrderItem): (j: int)
    ensures -1 <= j < |lines|
    ensures j >= 0 ==> FirstSameDish(lines, item, j)
    ensures j == -1 ==> forall k :: 0 <= k < |lines| ==> !SameDish(lines[k], item)
  {
    if lines == [] then -1
    else if SameDish(lines[0], item) then 0
    else
      var j := FindSameDish(lines[1..], item);
      if j == -1 then -1 else j + 1
  }

  /** The lines after adding `item`: its quantity is added to the first line
      that is the same dish, otherwise it is appended. */
  function Merged(lines: seq<OrderItem>, item: OrderItem): (r: seq<OrderItem>)
    ensures forall j :: FirstSameDish(lines, item, j) ==>
      r == lines[j := lines[j].(quantity := lines[j].quantity + item.quantity)]
    ensures (forall k :: 0 <= k < |lines| ==> !SameDish(lines[k], item)) ==> r == lines + [item]
  {
    var j := FindSameDish(lines, item);
    if j >= 0 then lines[j := lines[j].(quantity := lines[j].quantity + item.quantity)]
    else lines + [item]
  }

  /** `filter((i) => i.id !== itemId)` and its complement. */
  function KeepsLine(itemId: string): OrderItem -> bool
  {
    (i: OrderItem) => i.id != itemId
  }

  function HasId(itemId: string): OrderItem -> bool
  {
    (i: OrderItem) => i.id == itemId
  }

  /** The lines left after removing every line whose id is `itemId`. */
  function Removed(lines: seq<OrderItem>, itemId: string): (r: seq<OrderItem>)
    ensures |r| <= |lines|
    ensures forall x :: x in r <==> x in lines && x.id != itemId
  {
    Filter(lines, KeepsLine(itemId))
  }

  /** The lines after setting the quantity of every line whose id is `itemId`. */
  function WithQuantity(lines: seq<OrderItem>, itemId: string, quantity: int): (r: seq<OrderItem>)
    ensures |r| == |lines|
    ensures forall k :: 0 <= k < |r| ==> r[k].(quantity := lines[k].quantity) == lines[k]
    ensures forall k :: 0 <= k < |r| && lines[k].id == itemId ==> r[k].quantity == quantity
    ensures forall k :: 0 <= k < |r| && lines[k].id != itemId ==> r[k] == lines[k]
  {
    seq(|lines|, k requires 0 <= k < |lines| =>
      if lines[k].id == itemId then lines[k].(quantity := quantity) else lines[k])
  }

  /** The orders after `updateOrderStatus`. */
  function WithStatus(orders: seq<Order>, orderId: string, status: OrderStatus, now: int): (r: seq<Order>)
    ensures |r| == |orders|
    ensures forall k :: 0 <= k < |r| && orders[k].id == orderId ==>
      r[k] == orders[k].(status := status, updatedAt := now)
    ensures forall k :: 0 <= k < |r| && orders[k].id != orderId ==> r[k] == orders[k]
  {
    seq(|orders|, k requires 0 <= k < |orders| =>
      if orders[k].id == orderId then orders[k].(status := status, updatedAt := now) else orders[k])
  }

  /** The draft's lines, `currentOrder?.items || []`. */
  function DraftLines(d: Option<Draft>): seq<OrderItem>
  {
    if d.Some? && d.value.items.Some? then d.value.items.value else []
  }

  /** A draft whose subtotal is the one its lines give. */
  function Priced(lines: seq<OrderItem>): (d: Draft)
    ensures d.items == Some(lines) && d.subtotal == Some(Subtotal(lines))
  {
    Draft(Some(lines), Some(Subtotal(lines)))
  }

  class Store {
    var currentOrder: Option<Draft>
    var orders: seq<Order>

    /** The draft's subtotal agrees with its lines (or there is no draft, or no lines). */
    predicate SubtotalIsCurrent()
      reads this
    {
      currentOrder.Some? && currentOrder.value.items.Some? ==>
        currentOrder.value.subtotal == Some(Subtotal(currentOrder.value.items.value))
    }

    constructor ()
      ensures currentOrder == None && orders == []
      ensures SubtotalIsCurrent()
    {
      currentOrder := None;
      orders := [];
    }

    method AddItemToOrder(item: OrderItem)
      modifies this
      ensures currentOrder == Some(Priced(Merged(DraftLines(old(currentOrder)), item)))
      ensures orders == old(orders)
      ensures SubtotalIsCurrent()
    {
      var lines := DraftLines(currentOrder);
      var j := FindSameDish(lines, item);
      var updated := lines;
      if j >= 0 {
        updated := updated[j := updated[j].(quantity := updated[j].quantity + item.quantity)];
      } else {
        updated := updated + [item];
      }
      currentOrder := Some(Draft(Some(updated), Some(Subtotal(updated))));
    }

    method RemoveItemFromOrder(itemId: string)
      modifies this
      ensures old(currentOrder).None? || old(currentOrder).value.items.None? ==>
        currentOrder == old(currentOrder)
      ensures old(currentOrder).Some? && old(currentOrder).value.items.Some? ==>
        currentOrder == Some(Priced(Removed(old(currentOrder).value.items.value, itemId)))
      ensures orders == old(orders)
      ensures old(SubtotalIsCurrent()) ==> SubtotalIsCurrent()
    {
      if currentOrder.None? || currentOrder.value.items.None? {
        return;
      }
      var updated := Removed(currentOrder.value.items.value, itemId);
      currentOrder := Some(Draft(Some(updated), Some(Subtotal(updated))));
    }

    method UpdateItemQuantity(itemId: string, quantity: int)
      modifies this
      ensures old(currentOrder).None? || old(currentOrder).value.items.None? ==>
        currentOrder == old(currentOrder)
      ensures old(currentOrder).Some? && old(currentOrder).value.items.Some? ==>
        currentOrder == Some(Priced(WithQuantity(old(currentOrder).value.items.value, itemId, quantity)))
      ensures orders == old(orders)
      ensures old(SubtotalIsCurrent()) ==> SubtotalIsCurrent()
    {
      if currentOrder.None? || currentOrder.value.items.None? {
        return;
      }
      var updated := WithQuantity(currentOrder.value.items.value, itemId, quantity);
      currentOrder := Some(Draft(Some(updated), Some(Subtotal(updated))));
    }

    method ClearCurrentOrder()
      modifies this
      ensures currentOrder == None && orders == old(orders)
      ensures SubtotalIsCurrent()
    {
      currentOrder := None;
    }

    method SetCurrentOrder(draft: Draft)
      modifies this
      ensures currentOrder == Some(draft) && orders == old(orders)
    {
      currentOrder := Some(draft);
    }

    method SubmitOrder(order: Order)
      modifies this
      ensures orders == old(orders) + [order] && currentOrder == None
      ensures SubtotalIsCurrent()
    {
      orders := orders + [order];
      currentOrder := None;
    }

    method UpdateOrderStatus(orderId: string, status: OrderStatus, now: int)
      modifies this
      ensures orders == WithStatus(old(orders), orderId, status, now)
      ensures currentOrder == old(currentOrder)
    {
      orders := WithStatus(orders, orderId, status, now);
    }
  }

  // Properties of the list computations

  /** A merge keeps the number of lines and an append adds exactly one; every
      other line keeps its position and content. */
  lemma MergedShape(lines: seq<OrderItem>, item: OrderItem)
    ensures var r := Merged(lines, item);
      (exists k :: 0 <= k < |lines| && SameDish(lines[k], item)) <==> |r| == |lines|
    ensures var r := Merged(lines, item);
      |r| == |lines| || (|r| == |lines| + 1 && r[|lines|] == item)
    ensures var r := Merged(lines, item);
      forall k :: 0 <= k < |lines| && !FirstSameDish(lines, item, k) ==> r[k] == lines[k]
  {
    var j := FindSameDish(lines, item);
    if j >= 0 {
      assert FirstSameDish(lines, item, j);
      forall k | 0 <= k < |lines| && !FirstSameDish(lines, item, k)
        ensures Merged(lines, item)[k] == lines[k]
      {
        assert k != j;
      }
    }
  }

  /** Adding a line raises the subtotal by the added quantity at the unit
      price of the line it lands on: the new line itself when appended, the
      existing line (whose price snapshot is kept) when merged. */
  lemma MergedSubtotal(lines: seq<OrderItem>, item: OrderItem)
    ensures forall j :: FirstSameDish(lines, item, j) ==>
      Subtotal(Merged(lines, item)) == Subtotal(lines) + UnitPrice(lines[j]) * item.quantity
    ensures (forall k :: 0 <= k < |lines| ==> !SameDish(lines[k], item)) ==>
      Subtotal(Merged(lines, item)) == Subtotal(lines) + LineTotal(item)
  {
    var j := FindSameDish(lines, item);
    if j >= 0 {
      var merged := lines[j].(quantity := lines[j].quantity + item.quantity);
      SumOfUpdate(lines, j, merged, LineTotal);
      assert LineTotal(merged) == LineTotal(lines[j]) + UnitPrice(lines[j]) * item.quantity by {
        var u := UnitPrice(lines[j]);
        assert UnitPrice(merged) == u;
        assert u * (lines[j].quantity + item.quantity) == u * lines[j].quantity + u * item.quantity;
      }
    } else {
      SumOfConcat(lines, [item], LineTotal);
      assert SumOf([item], LineTotal) == LineTotal(item);
    }
  }

  /** When the line an item merges into has the same unit price as the item,
      the subtotal grows by exactly the item's own line total. */
  lemma MergedSubtotalSamePrice(lines: seq<OrderItem>, item: OrderItem)
    requires forall k :: 0 <= k < |lines| && SameDish(lines[k], item) ==> lines[k].price == item.price
    ensures Subtotal(Merged(lines, item)) == Subtotal(lines) + LineTotal(item)
  {
    MergedSubtotal(lines, item);
    var j := FindSameDish(lines, item);
    if j >= 0 {
      assert FirstSameDish(lines, item, j);
      assert UnitPrice(lines[j]) == UnitPrice(item);
    }
  }

  /** Adding the same dish twice gives one line holding both quantities, not two lines. */
  lemma MergeLaw(lines: seq<OrderItem>, item: OrderItem, again: OrderItem)
    requires forall k :: 0 <= k < |lines| ==> !SameDish(lines[k], item)
    requires SameDish(again, item)
    ensures |Merged(Merged(lines, item), again)| == |lines| + 1
    ensures Merged(Merged(lines, item), again)[|lines|].quantity == item.quantity + again.quantity
  {
    var once := Merged(lines, item);
    assert once == lines + [item];
    assert FirstSameDish(once, again, |lines|) by {
      forall k | 0 <= k < |lines| ensures !SameDish(once[k], again) {
        assert once[k] == lines[k];
      }
    }
  }

  /** Removing splits the subtotal: what is left plus what was removed. */
  lemma RemovedSubtotal(lines: seq<OrderItem>, itemId: string)
    ensures Subtotal(lines) == Subtotal(Removed(lines, itemId)) + Subtotal(Filter(lines, HasId(itemId)))
  {
    SumOfPartition(lines, LineTotal, KeepsLine(itemId), HasId(itemId));
  }

  /** Removing keeps the remaining lines in their original order: removal
      distributes over any split of the list. */
  lemma RemovedPreservesOrder(front: seq<OrderItem>, back: seq<OrderItem>, itemId: string)
    ensures Removed(front + back, itemId) == Removed(front, itemId) + Removed(back, itemId)
  {
    FilterConcat(front, back, KeepsLine(itemId));
  }

  /** Removing an id that no line carries changes nothing. */
  lemma RemovedAbsent(lines: seq<OrderItem>, itemId: string)
    requires forall k :: 0 <= k < |lines| ==> lines[k].id != itemId
    ensures Removed(lines, itemId) == lines
  {
    FilterKeepsAll(lines, KeepsLine(itemId));
  }

  /** When exactly one line has the id, setting its quantity moves the
      subtotal by its unit price times the change. No lower bound is checked:
      a quantity of 0 or less keeps the line. */
  lemma WithQuantitySubtotal(lines: seq<OrderItem>, itemId: string, quantity: int, k: nat)
    requires k < |lines| && lines[k].id == itemId
    requires forall i :: 0 <= i < |lines| && i != k ==> lines[i].id != itemId
    ensures |WithQuantity(lines, itemId, quantity)| == |lines|
    ensures Subtotal(WithQuantity(lines, itemId, quantity)) ==
      Subtotal(lines) + UnitPrice(lines[k]) * (quantity - lines[k].quantity)
  {
    var line := lines[k].(quantity := quantity);
    assert WithQuantity(lines, itemId, quantity) == lines[k := line];
    SumOfUpdate(lines, k, line, LineTotal);
    assert UnitPrice(line) == UnitPrice(lines[k]);
    var u := UnitPrice(lines[k]);
    assert u * quantity - u * lines[k].quantity == u * (quantity - lines[k].quantity);
  }
}

/** The waiter's ordering screen (src/pages/WaiterDashboard.tsx): choosing a
    table, routing dishes to kitchen stations, choosing modifiers, stepping
    quantities and sending the draft to the kitchen. The screen's own state
    (selected table, category tab, open modifier chooser, chosen modifiers) is
    a class; the draft and the order list live in the order store it drives. */
module WaiterDashboard {
  import opened Types
  import opened Seqs
  import opened OrderStore
  import opened MockData
  import opened MenuManagement

  // Kitchen routing

  /** The kitchen station that prepares a dish of the given menu category. */
  function StationForCategory(category: string): (s: KitchenStation)
    ensures s == BAR <==> category == "Beverages"
    ensures s == DESSERT <==> category == "Desserts"
    ensures s == HOT <==> (category == "Starters" || category == "Main Course" || category == "Breads")
    ensures s == COLD <==> category !in ["Beverages", "Desserts", "Starters", "Main Course", "Breads"]
  {
    if category == "Beverages" then BAR
    else if category == "Desserts" then DESSERT
    else if category == "Starters" || category == "Main Course" || category == "Breads" then HOT
    else COLD
  }

  /** Every dish on the demo menu goes to the hot kitchen, the bar or the dessert station; none to COLD. */
  lemma MockMenuStations()
    ensures forall k :: 0 <= k < |MockMenuItems| ==> StationForCategory(MockMenuItems[k].category) != COLD
  {
  }

  // Tables

  /** A table can be picked when it is free or already seated: exactly the
      tables whose buttons are not disabled (reserved or billing). */
  predicate CanSelectTable(t: Table)
    ensures CanSelectTable(t) <==> !(t.status == Reserved || t.status == Billing)
  {
    t.status == Available || t.status == Occupied
  }

  // Menu shown for a category tab

  /** `selectedCategory === 'All' ? items : items.filter(category === selected)`. */
  function MenuForCategory(items: seq<MenuItem>, selected: string): (r: seq<MenuItem>)
    ensures selected == "All" ==> r == items
    ensures forall x :: x in r <==> x in items && (selected == "All" || x.category == selected)
  {
    if selected == "All" then items else Filter(items, InCategory(selected))
  }

  function InCategory(selected: string): MenuItem -> bool
  {
    (item: MenuItem) => item.category == selected
  }

  function CategoryFilter(selected: string): MenuItem -> bool
  {
    (item: MenuItem) => MatchesCategory(item, selected)
  }

  /** The waiter screen's conditional and the menu screen's category test pick the same items. */
  lemma MenuForCategoryIsCategoryFilter(items: seq<MenuItem>, selected: string)
    ensures MenuForCategory(items, selected) == Filter(items, CategoryFilter(selected))
  {
    if selected == "All" {
      FilterKeepsAll(items, CategoryFilter(selected));
    } else {
      FilterSameTest(items, InCategory(selected), CategoryFilter(selected));
    }
  }

  /** Every category tab after 'All' lists at least one dish. */
  lemma EveryTabHasDishes(items: seq<MenuItem>, c: string)
    requires c in CategoryTabs(items)[1..]
    ensures MenuForCategory(items, c) != []
  {
    var k :| 0 <= k < |items| && items[k].category == c;
    assert items[k] in MenuForCategory(items, c);
  }

  // Modifier choice

  /** The entry recorded when an option of a modifier is chosen. */
  function Selection(m: Modifier, o: ModifierOption): (x: SelectedModifier)
    ensures x.modifierId == m.id && x.optionId == o.id && x.name == o.name
    ensures x.priceAdjustment == o.priceAdjustment
  {
    SelectedModifier(m.id, o.id, o.name, o.priceAdjustment)
  }

  function OtherModifier(modifierId: string): SelectedModifier -> bool
  {
    (x: SelectedModifier) => x.modifierId != modifierId
  }

  function ForModifier(modifierId: string): SelectedModifier -> bool
  {
    (x: SelectedModifier) => x.modifierId == modifierId
  }

  function OtherOption(optionId: string): SelectedModifier -> bool
  {
    (x: SelectedModifier) => x.optionId != optionId
  }

  /** A radio choice: any earlier choice for the same modifier is dropped and the new one appended. */
  function ChooseSingle(sel: seq<SelectedModifier>, m: Modifier, o: ModifierOption): (r: seq<SelectedModifier>)
    ensures |r| >= 1 && r[|r| - 1] == Selection(m, o)
    ensures forall x :: x in r[..|r| - 1] <==> x in sel && x.modifierId != m.id
  {
    Filter(sel, OtherModifier(m.id)) + [Selection(m, o)]
  }

  /** A checkbox change: checking appends the option, unchecking drops every entry with its option id. */
  function ToggleMulti(sel: seq<SelectedModifier>, m: Modifier, o: ModifierOption, checked: bool): (r: seq<SelectedModifier>)
    ensures checked ==> r == sel + [Selection(m, o)]
    ensures !checked ==> forall x :: x in r <==> x in sel && x.optionId != o.id
  {
    if checked then sel + [Selection(m, o)] else Filter(sel, OtherOption(o.id))
  }

  /** How many chosen entries belong to the modifier. */
  function CountFor(sel: seq<SelectedModifier>, modifierId: string): nat
  {
    |Filter(sel, ForModifier(modifierId))|
  }

  /** After a radio choice the modifier holds exactly one entry, whatever was chosen
      before, and every other modifier's entries are untouched. */
  lemma ChooseSingleHoldsOne(sel: seq<SelectedModifier>, m: Modifier, o: ModifierOption, other: string)
    requires other != m.id
    ensures CountFor(ChooseSingle(sel, m, o), m.id) == 1
    ensures Filter(ChooseSingle(sel, m, o), ForModifier(other)) == Filter(sel, ForModifier(other))
  {
    var kept := Filter(sel, OtherModifier(m.id));
    var x := Selection(m, o);
    FilterConcat(kept, [x], ForModifier(m.id));
    FilterKeepsNone(kept, ForModifier(m.id));
    FilterSingleton(x, ForModifier(m.id));
    FilterConcat(kept, [x], ForModifier(other));
    FilterSingleton(x, ForModifier(other));
    FilterFilter(sel, OtherModifier(m.id), ForModifier(other), ForModifier(other));
  }

  /** Checking an option that is not chosen and then unchecking it restores the selection. */
  lemma ToggleMultiRoundTrip(sel: seq<SelectedModifier>, m: Modifier, o: ModifierOption)
    requires forall k :: 0 <= k < |sel| ==> sel[k].optionId != o.id
    ensures ToggleMulti(ToggleMulti(sel, m, o, true), m, o, false) == sel
  {
    var x := Selection(m, o);
    FilterConcat(sel, [x], OtherOption(o.id));
    FilterKeepsAll(sel, OtherOption(o.id));
    FilterSingleton(x, OtherOption(o.id));
  }

  // New order lines

  /** `addItemDirectly`'s line: one unit at the dine-in price, routed by category,
      carrying the chosen modifiers (possibly none); its id comes from the clock. */
  function NewLine(item: MenuItem, mods: seq<SelectedModifier>, now: nat): (line: OrderItem)
    ensures line.menuItemId == item.id && line.name == item.name
    ensures line.quantity == 1 && line.price == item.prices.dineIn
    ensures line.station == StationForCategory(item.category)
    ensures line.selectedModifiers == Some(mods) && line.notes == None
    ensures line.id == "item-" + NatToString(now)
  {
    OrderItem("item-" + NatToString(now), item.id, item.name, 1, item.prices.dineIn,
      Some(mods), None, StationForCategory(item.category))
  }

  /** A new line costs its dine-in price plus the chosen adjustments. */
  lemma NewLineTotal(item: MenuItem, mods: seq<SelectedModifier>, now: nat)
    ensures LineTotal(NewLine(item, mods, now)) ==
      item.prices.dineIn + SumOf(mods, (x: SelectedModifier) => x.priceAdjustment)
  {
  }

  /** An item opens the modifier chooser exactly when it has at least one modifier group. */
  predicate HasModifiers(item: MenuItem)
  {
    item.modifiers.Some? && |item.modifiers.value| > 0
  }

  // Sending to the kitchen

  /** The guard of `handleSendToKitchen`: a table is chosen and the draft has
      at least one line, which is when the send button is enabled and a table
      is chosen; a draft without a line list counts as empty. */
  predicate CanSend(table: Option<Table>, draft: Option<Draft>)
    ensures CanSend(table, draft) <==> table.Some? && DraftLines(draft) != []
  {
    table.Some? && draft.Some? && draft.value.items.Some? && |draft.value.items.value| > 0
  }

  /** `currentOrder.subtotal || 0`. */
  function DraftSubtotal(d: Draft): int
  {
    if d.subtotal.Some? then d.subtotal.value else 0
  }

  /** The order sent to the kitchen: pending, dine-in, 5% tax and 5% service
      on the draft's subtotal, no discount or rounding, total 1.1 × subtotal. */
  function KitchenOrder(table: Table, d: Draft, user: Option<User>, orderNumber: string, now: nat): (o: Order)
    requires d.items.Some?
    ensures o.status == Pending && o.orderType == DineIn
    ensures o.tableId == Some(table.id) && o.tableName == Some(table.name)
    ensures o.items == d.items.value && o.subtotal == DraftSubtotal(d)
    ensures o.taxAmount == o.subtotal as real * 5.0 / 100.0
    ensures o.serviceCharge == o.taxAmount && o.discount == 0.0 && o.roundOff == 0.0
    ensures o.total == o.subtotal as real + o.taxAmount + o.serviceCharge - o.discount + o.roundOff
    ensures o.orderNumber == orderNumber && o.createdAt == now && o.updatedAt == now
    ensures user.Some? ==> o.waiterId == Some(user.value.id) && o.waiterName == Some(user.value.name)
    ensures user.None? ==> o.waiterId == None && o.waiterName == None
  {
    var s := DraftSubtotal(d);
    Order("order-" + NatToString(now), orderNumber, Some(table.id), Some(table.name), DineIn, Pending,
      d.items.value, s, s as real * 0.05, 0.0, s as real * 0.05, 0.0, s as real * 1.1,
      if user.Some? then Some(user.value.id) else None,
      if user.Some? then Some(user.value.name) else None,
      now, now)
  }

  /** A draft kept by the store prices the kitchen order at the sum of its lines. */
  lemma KitchenOrderSubtotal(table: Table, lines: seq<OrderItem>, user: Option<User>, orderNumber: string, now: nat)
    ensures KitchenOrder(table, Priced(lines), user, orderNumber, now).subtotal == Subtotal(lines)
    ensures KitchenOrder(table, Priced(lines), user, orderNumber, now).total == Subtotal(lines) as real * 1.1
  {
  }

  // Quantity stepper

  /** The lines after pressing "−" on `line`: one less, or removal at quantity 1 or below. */
  function Decreased(lines: seq<OrderItem>, line: OrderItem): (r: seq<OrderItem>)
    ensures line.quantity > 1 ==> r == WithQuantity(lines, line.id, line.quantity - 1)
    ensures line.quantity <= 1 ==> r == Removed(lines, line.id)
  {
    if line.quantity > 1 then WithQuantity(lines, line.id, line.quantity - 1) else Removed(lines, line.id)
  }

  /** Lines carry distinct ids. */
  predicate UniqueIds(lines: seq<OrderItem>)
  {
    forall i, j :: 0 <= i < j < |lines| ==> lines[i].id != lines[j].id
  }

  /** With distinct ids, the lines carrying the id of line `k` are just that line. */
  lemma OnlyLineWithId(lines: seq<OrderItem>, k: nat)
    requires k < |lines| && UniqueIds(lines)
    ensures Filter(lines, HasId(lines[k].id)) == [lines[k]]
  {
    var p := HasId(lines[k].id);
    forall i | 0 <= i < |lines| ensures p(lines[i]) <==> i == k {
      if i < k {
        assert lines[i].id != lines[k].id;
      } else if i > k {
        assert lines[k].id != lines[i].id;
      }
    }
    FilterOnly(lines, p, k);
  }

  /** Pressing "−" on a line lowers the subtotal by its unit price, whether the
      line is decremented or, at quantity 1, removed. */
  lemma DecreasedSubtotal(lines: seq<OrderItem>, k: nat)
    requires k < |lines| && UniqueIds(lines) && lines[k].quantity >= 1
    ensures Subtotal(Decreased(lines, lines[k])) == Subtotal(lines) - UnitPrice(lines[k])
    ensures lines[k].quantity == 1 ==> forall i :: 0 <= i < |Decreased(lines, lines[k])| ==>
      Decreased(lines, lines[k])[i].id != lines[k].id
  {
    var line := lines[k];
    if line.quantity > 1 {
      WithQuantitySubtotal(lines, line.id, line.quantity - 1, k);
    } else {
      RemovedSubtotal(lines, line.id);
      OnlyLineWithId(lines, k);
      assert SumOf([line], LineTotal) == LineTotal(line);
    }
  }

  /** Pressing "+" raises the subtotal by the line's unit price. */
  lemma IncreasedSubtotal(lines: seq<OrderItem>, k: nat)
    requires k < |lines| && UniqueIds(lines)
    ensures Subtotal(WithQuantity(lines, lines[k].id, lines[k].quantity + 1)) == Subtotal(lines) + UnitPrice(lines[k])
  {
    WithQuantitySubtotal(lines, lines[k].id, lines[k].quantity + 1, k);
  }

  // The screen

  class WaiterPage {
    var selectedTable: Option<Table>
    var selectedCategory: string
    /** The item whose modifier chooser is open, if any. */
    var modifierModal: Option<MenuItem>
    var selectedModifiers: seq<SelectedModifier>
    const store: Store
    const ids: IdGenerator

    constructor (store: Store, ids: IdGenerator)
      ensures selectedTable == None && selectedCategory == "All"
      ensures modifierModal == None && selectedModifiers == []
      ensures this.store == store && this.ids == ids
    {
      selectedTable := None;
      selectedCategory := "All";
      modifierModal := None;
      selectedModifiers := [];
      this.store := store;
      this.ids := ids;
    }

    /** Picking a table takes effect only for a free or seated table. */
    method HandleTableSelect(t: Table)
      modifies this
      ensures CanSelectTable(t) ==> selectedTable == Some(t)
      ensures !CanSelectTable(t) ==> selectedTable == old(selectedTable)
      ensures selectedCategory == old(selectedCategory) && modifierModal == old(modifierModal)
      ensures selectedModifiers == old(selectedModifiers)
    {
      if t.status == Available || t.status == Occupied {
        selectedTable := Some(t);
      }
    }

    /** "Change Table" goes back to the table list. */
    method ChangeTable()
      modifies this
      ensures selectedTable == None && selectedCategory == old(selectedCategory)
      ensures modifierModal == old(modifierModal) && selectedModifiers == old(selectedModifiers)
    {
      selectedTable := None;
    }

    method SelectCategory(category: string)
      modifies this
      ensures selectedCategory == category && selectedTable == old(selectedTable)
      ensures modifierModal == old(modifierModal) && selectedModifiers == old(selectedModifiers)
    {
      selectedCategory := category;
    }

    /** `handleAddItem`: an item with modifier groups opens the chooser with an
        empty choice; any other item is added at once with no modifiers. */
    method HandleAddItem(item: MenuItem, now: nat)
      modifies this, store
      ensures HasModifiers(item) ==>
        modifierModal == Some(item) && selectedModifiers == [] && store.currentOrder == old(store.currentOrder)
      ensures !HasModifiers(item) ==>
        modifierModal == old(modifierModal) && selectedModifiers == old(selectedModifiers) &&
        store.currentOrder == Some(Priced(Merged(DraftLines(old(store.currentOrder)), NewLine(item, [], now))))
      ensures store.orders == old(store.orders)
      ensures selectedTable == old(selectedTable) && selectedCategory == old(selectedCategory)
    {
      if item.modifiers.Some? && |item.modifiers.value| > 0 {
        modifierModal := Some(item);
        selectedModifiers := [];
      } else {
        store.AddItemToOrder(NewLine(item, [], now));
      }
    }

    /** A change on an option input: radio buttons replace, checkboxes toggle. */
    method ChooseOption(m: Modifier, o: ModifierOption, checked: bool)
      modifies this
      ensures m.multiSelect ==> selectedModifiers == ToggleMulti(old(selectedModifiers), m, o, checked)
      ensures !m.multiSelect ==> selectedModifiers == ChooseSingle(old(selectedModifiers), m, o)
      ensures selectedTable == old(selectedTable) && selectedCategory == old(selectedCategory)
      ensures modifierModal == old(modifierModal)
    {
      if m.multiSelect {
        if checked {
          selectedModifiers := selectedModifiers + [Selection(m, o)];
        } else {
          selectedModifiers := Filter(selectedModifiers, OtherOption(o.id));
        }
      } else {
        selectedModifiers := Filter(selectedModifiers, OtherModifier(m.id)) + [Selection(m, o)];
      }
    }

    /** "Add to Order" in the chooser: adds the item with the chosen modifiers and closes the chooser. */
    method ConfirmModifiers(now: nat)
      modifies this, store
      ensures old(modifierModal).None? ==> store.currentOrder == old(store.currentOrder)
      ensures old(modifierModal).Some? ==>
        store.currentOrder == Some(Priced(Merged(DraftLines(old(store.currentOrder)), NewLine(old(modifierModal).value, old(selectedModifiers), now))))
      ensures modifierModal == None && store.orders == old(store.orders)
      ensures selectedModifiers == old(selectedModifiers)
      ensures selectedTable == old(selectedTable) && selectedCategory == old(selectedCategory)
    {
      if modifierModal.Some? {
        store.AddItemToOrder(NewLine(modifierModal.value, selectedModifiers, now));
      }
      modifierModal := None;
    }

    method CloseModifiers()
      modifies this
      ensures modifierModal == None && selectedModifiers == old(selectedModifiers)
      ensures selectedTable == old(selectedTable) && selectedCategory == old(selectedCategory)
    {
      modifierModal := None;
    }

    /** `handleSendToKitchen`: refused without a table or without lines; otherwise
        the order takes the next order number, is submitted, and the table is released. */
    method HandleSendToKitchen(user: Option<User>, now: nat) returns (sent: bool)
      modifies this, store, ids
      ensures sent <==> old(CanSend(selectedTable, store.currentOrder))
      ensures !sent ==>
        selectedTable == old(selectedTable) && store.currentOrder == old(store.currentOrder) &&
        store.orders == old(store.orders) && ids.orderCounter == old(ids.orderCounter)
      ensures sent ==> store.orders == old(store.orders) + [KitchenOrder(old(selectedTable).value,
        old(store.currentOrder).value, user, OrderNumber(old(ids.orderCounter)), now)]
      ensures sent ==>
        store.currentOrder == None && selectedTable == None && ids.orderCounter == old(ids.orderCounter) + 1
      ensures ids.billCounter == old(ids.billCounter)
      ensures selectedCategory == old(selectedCategory) && modifierModal == old(modifierModal)
      ensures selectedModifiers == old(selectedModifiers)
    {
      if selectedTable.None? || store.currentOrder.None? || store.currentOrder.value.items.None?
        || |store.currentOrder.value.items.value| == 0
      {
        return false;
      }
      ghost var orders0 := store.orders;
      var table, draft := selectedTable.value, store.currentOrder.value;
      var number := ids.GenerateOrderNumber();
      var order := KitchenOrder(table, draft, user, number, now);
      store.SubmitOrder(order);
      assert store.orders == orders0 + [order];
      selectedTable := None;
      sent := true;
    }

    /** The "−" button on a line. */
    method DecreaseQuantity(line: OrderItem)
      modifies store
      ensures old(store.currentOrder).None? || old(store.currentOrder).value.items.None? ==>
        store.currentOrder == old(store.currentOrder)
      ensures old(store.currentOrder).Some? && old(store.currentOrder).value.items.Some? ==>
        store.currentOrder == Some(Priced(Decreased(old(store.currentOrder).value.items.value, line)))
      ensures store.orders == old(store.orders)
    {
      if line.quantity > 1 {
        store.UpdateItemQuantity(line.id, line.quantity - 1);
      } else {
        store.RemoveItemFromOrder(line.id);
      }
    }

    /** The "+" button on a line. */
    method IncreaseQuantity(line: OrderItem)
      modifies store
      ensures old(store.currentOrder).None? || old(store.currentOrder).value.items.None? ==>
        store.currentOrder == old(store.currentOrder)
      ensures old(store.currentOrder).Some? && old(store.currentOrder).value.items.Some? ==>
        store.currentOrder == Some(Priced(WithQuantity(old(store.currentOrder).value.items.value, line.id, line.quantity + 1)))
      ensures store.orders == old(store.orders)
    {
      store.UpdateItemQuantity(line.id, line.quantity + 1);
    }

    /** The "Remove" link on a line. */
    method RemoveLine(line: OrderItem)
      modifies store
      ensures old(store.currentOrder).None? || old(store.currentOrder).value.items.None? ==>
        store.currentOrder == old(store.currentOrder)
      ensures old(store.currentOrder).Some? && old(store.currentOrder).value.items.Some? ==>
        store.currentOrder == Some(Priced(Removed(old(store.currentOrder).value.items.value, line.id)))
      ensures store.orders == old(store.orders)
    {
      store.RemoveItemFromOrder(line.id);
    }
  }
}

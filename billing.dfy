/** The cashier's bill (src/pages/Billing.tsx): the amounts shown for an
    order's subtotal and a percentage discount typed by the cashier, and the
    tables offered for billing. */
module BillingPage {
  import opened Types
  import opened Seqs
  import opened MockData
  import opened OrderStore
  import opened WaiterDashboard

  /** The figures of the bill summary. */
  datatype Bill = Bill(
    subtotal: real,
    taxAmount: real,
    cgst: real,
    sgst: real,
    serviceCharge: real,
    discountAmount: real,
    total: real)

  /** `selectedOrder?.subtotal || 0`. */
  function BillSubtotal(order: Option<Order>): int
  {
    if order.Some? then order.value.subtotal else 0
  }

  /** With no order selected every figure of the bill reads 0, whatever the discount. */
  lemma NoOrderZeroBill(discount: real)
    ensures Summary(BillSubtotal(None), discount) == Bill(0.0, 0.0, 0.0, 0.0, 0.0, 0.0, 0.0)
  {
  }

  /** The bill for a subtotal and a discount percentage: 5% tax split evenly
      into CGST and SGST, 5% service charge, the discount taken off the subtotal. */
  function Summary(subtotal: int, discount: real): (b: Bill)
    ensures b.subtotal == subtotal as real
    ensures b.taxAmount == subtotal as real * 5.0 / 100.0
    ensures b.serviceCharge == subtotal as real * 5.0 / 100.0
    ensures b.discountAmount == subtotal as real * discount / 100.0
    ensures b.cgst == b.sgst && b.cgst + b.sgst == b.taxAmount
    ensures b.total == b.subtotal + b.taxAmount + b.serviceCharge - b.discountAmount
  {
    var s := subtotal as real;
    var tax := s * 0.05;
    Bill(s, tax, tax / 2.0, tax / 2.0, s * 0.05, (s * discount) / 100.0, s + tax + s * 0.05 - (s * discount) / 100.0)
  }

  /** The grand total is the subtotal scaled by 110% less the discount rate. */
  lemma TotalIsScaledSubtotal(subtotal: int, discount: real)
    ensures Summary(subtotal, discount).total == subtotal as real * (110.0 - discount) / 100.0
  {
  }

  /** Without a discount the bill's total is the total the waiter screen put on the order. */
  lemma UndiscountedMatchesKitchenOrder(table: Table, d: Draft, user: Option<User>, orderNumber: string, now: nat)
    requires d.items.Some?
    ensures Summary(KitchenOrder(table, d, user, orderNumber, now).subtotal, 0.0).total ==
      KitchenOrder(table, d, user, orderNumber, now).total
    ensures Summary(KitchenOrder(table, d, user, orderNumber, now).subtotal, 0.0).taxAmount ==
      KitchenOrder(table, d, user, orderNumber, now).taxAmount
  {
  }

  /** Within the input's 0 to 100 range a discount never makes the total negative,
      and a larger discount never raises it. */
  lemma DiscountBounds(subtotal: int, d1: real, d2: real)
    requires subtotal >= 0 && 0.0 <= d1 <= d2 <= 100.0
    ensures Summary(subtotal, d2).total >= 0.0
    ensures Summary(subtotal, d2).total <= Summary(subtotal, d1).total
  {
    TotalIsScaledSubtotal(subtotal, d1);
    TotalIsScaledSubtotal(subtotal, d2);
    var s := subtotal as real;
    assert s * (110.0 - d2) >= 0.0;
    assert s * (110.0 - d2) <= s * (110.0 - d1);
  }

  /** The demo order's bill without discount: 720 with CGST and SGST of 18 each, 36 service, 792 in all. */
  lemma MockBill(now: int)
    ensures var b := Summary(BillSubtotal(Some(MockOrder(now))), 0.0);
      b.cgst == 18.0 && b.sgst == 18.0 && b.serviceCharge == 36.0 && b.total == 792.0
    ensures Summary(BillSubtotal(Some(MockOrder(now))), 0.0).total == MockOrder(now).total
  {
  }

  // Tables offered for billing

  /** A table can be billed when it is seated or already billing. */
  predicate Billable(t: Table)
  {
    t.status == Occupied || t.status == Billing
  }

  function BillableTest(): Table -> bool
  {
    (t: Table) => Billable(t)
  }

  /** `occupiedTables`: the billable tables, in floor order. */
  function BillableTables(tables: seq<Table>): (r: seq<Table>)
    ensures |r| <= |tables|
    ensures forall t :: t in r <==> t in tables && (t.status == Occupied || t.status == Billing)
  {
    Filter(tables, BillableTest())
  }
}

/** The order routes of the server (backend/routes/orders.js): the filtered
    order list, order creation with its totals, line rows and clock-based
    order number inside one transaction, and the status update. Request
    fields that are stored as sent are kept as opaque JavaScript values. */
module BackendOrders {
  import opened Types
  import opened Seqs
  import opened SqlText
  import opened MockData
  import OrderStore
  import BillingPage

  // The list query

  const OrdersBase: seq<Fragment> := [Text("SELECT * FROM orders WHERE 1=1")]
  const StatusColumn: string := " AND status = "
  const TypeColumn: string := " AND order_type = "
  const NewestFirst: seq<Fragment> := [Text(" ORDER BY created_at DESC")]

  /** The GET / handler's statement: a status condition exactly when a status
      is given and an order-type condition exactly when a type is given, in
      that order, each placeholder bound to its own parameter, newest first. */
  method BuildOrdersQuery(status: Option<string>, orderType: Option<string>)
    returns (query: seq<Fragment>, params: seq<string>)
    ensures query == OrdersBase
      + (if Given(status) then [Text(StatusColumn), Placeholder] else [])
      + (if Given(orderType) then [Text(TypeColumn), Placeholder] else [])
      + NewestFirst
    ensures params == (if Given(status) then [status.value] else []) + (if Given(orderType) then [orderType.value] else [])
    ensures Labels(query) == (if Given(status) then [StatusColumn] else []) + (if Given(orderType) then [TypeColumn] else [])
    ensures Placeholders(query) == |params|
    ensures query[|query| - 1..] == NewestFirst
  {
    query := OrdersBase;
    params := [];
    TextLabels(OrdersBase[0].text);
    ClauseLabel(StatusColumn);
    ClauseLabel(TypeColumn);
    TextLabels(NewestFirst[0].text);
    if Given(status) {
      LabelsConcat(query, [Text(StatusColumn), Placeholder], "");
      query := query + [Text(StatusColumn), Placeholder];
      params := params + [status.value];
    }
    if Given(orderType) {
      LabelsConcat(query, [Text(TypeColumn), Placeholder], "");
      query := query + [Text(TypeColumn), Placeholder];
      params := params + [orderType.value];
    }
    LabelsConcat(query, NewestFirst, "");
    query := query + NewestFirst;
  }

  // Totals

  /** One requested line: the client's menu item, quantity and unit price. */
  datatype LineRequest = LineRequest(menuItemId: string, quantity: int, unitPrice: int, notes: Value)

  function RequestLineTotal(item: LineRequest): int
  {
    item.unitPrice * item.quantity
  }

  /** Σ unit_price × quantity over the requested lines. */
  /** No line asks for a negative price or quantity. */
  predicate NonNegativeLines(items: seq<LineRequest>)
  {
    forall k :: 0 <= k < |items| ==> items[k].unitPrice >= 0 && items[k].quantity >= 0
  }

  function RequestSubtotal(items: seq<LineRequest>): (total: int)
    ensures NonNegativeLines(items) ==> total >= 0
  {
    SumOfNonNegative(items, RequestLineTotal);
    SumOf(items, RequestLineTotal)
  }

  /** The `subtotal +=` loop of the POST handler. */
  method ComputeSubtotal(items: seq<LineRequest>) returns (subtotal: int)
    ensures subtotal == RequestSubtotal(items)
  {
    subtotal := 0;
    var i := 0;
    while i < |items|
      invariant 0 <= i <= |items|
      invariant subtotal == RequestSubtotal(items[..i])
    {
      assert items[..i + 1] == items[..i] + [items[i]];
      SumOfConcat(items[..i], [items[i]], RequestLineTotal);
      assert [items[i]][1..] == [];
      subtotal := subtotal + items[i].unitPrice * items[i].quantity;
      i := i + 1;
    }
    assert items[..i] == items;
  }

  datatype Totals = Totals(subtotal: int, taxAmount: real, serviceCharge: real, totalAmount: real)

  /** Tax and service charge are 5% each and the total is their sum with the subtotal. */
  function OrderTotals(subtotal: int): (t: Totals)
    ensures t.subtotal == subtotal
    ensures t.taxAmount == subtotal as real * 5.0 / 100.0 && t.serviceCharge == t.taxAmount
    ensures t.totalAmount == t.subtotal as real + t.taxAmount + t.serviceCharge
  {
    var s := subtotal as real;
    Totals(subtotal, s * 0.05, s * 0.05, s + s * 0.05 + s * 0.05)
  }

  /** The server's total is the bill's total without discount, and its tax the bill's tax. */
  lemma TotalsMatchBill(subtotal: int)
    ensures OrderTotals(subtotal).totalAmount == BillingPage.Summary(subtotal, 0.0).total
    ensures OrderTotals(subtotal).taxAmount == BillingPage.Summary(subtotal, 0.0).taxAmount
    ensures OrderTotals(subtotal).totalAmount == subtotal as real * 110.0 / 100.0
  {
    BillingPage.TotalIsScaledSubtotal(subtotal, 0.0);
  }

  /** A client line as the server receives it: its snapshot price becomes the unit price. */
  function AsRequest(line: OrderItem): LineRequest
  {
    LineRequest(line.menuItemId, line.quantity, line.price, if line.notes.Some? then Str(line.notes.value) else Undefined)
  }

  function AsRequests(lines: seq<OrderItem>): (r: seq<LineRequest>)
    ensures |r| == |lines| && forall k :: 0 <= k < |lines| ==> r[k] == AsRequest(lines[k])
  {
    seq(|lines|, k requires 0 <= k < |lines| => AsRequest(lines[k]))
  }

  function ModifierCharge(line: OrderItem): int
  {
    OrderStore.ModifierTotal(line.selectedModifiers) * line.quantity
  }

  /** The server prices lines without their modifiers: the client's subtotal is
      the server's plus the modifier adjustments times the quantities. */
  lemma {:induction false} ClientSubtotalAddsModifiers(lines: seq<OrderItem>)
    ensures OrderStore.Subtotal(lines) == RequestSubtotal(AsRequests(lines)) + SumOf(lines, ModifierCharge)
  {
    if lines != [] {
      ClientSubtotalAddsModifiers(lines[1..]);
      assert AsRequests(lines)[1..] == AsRequests(lines[1..]);
      var l := lines[0];
      assert OrderStore.LineTotal(l) == RequestLineTotal(AsRequest(l)) + ModifierCharge(l) by {
        var m := OrderStore.ModifierTotal(l.selectedModifiers);
        assert (l.price + m) * l.quantity == l.price * l.quantity + m * l.quantity;
      }
    }
  }

  // Stored rows

  /** An `order_items` row. */
  datatype LineRow = LineRow(id: string, orderId: string, menuItemId: string, quantity: int, unitPrice: int, totalPrice: int, notes: Value)

  /** The rows inserted for the requested lines, one per line, in request order. */
  function LineRows(orderId: string, items: seq<LineRequest>, lineIds: seq<string>): (rows: seq<LineRow>)
    requires |lineIds| == |items|
    ensures |rows| == |items|
    ensures forall k :: 0 <= k < |items| ==>
      rows[k] == LineRow(lineIds[k], orderId, items[k].menuItemId, items[k].quantity, items[k].unitPrice,
        items[k].unitPrice * items[k].quantity, items[k].notes)
  {
    seq(|items|, k requires 0 <= k < |items| => LineRow(lineIds[k], orderId, items[k].menuItemId,
      items[k].quantity, items[k].unitPrice, items[k].unitPrice * items[k].quantity, items[k].notes))
  }

  function RowTotal(row: LineRow): int
  {
    row.totalPrice
  }

  /** The stored line totals add up to the stored subtotal. */
  lemma {:induction false} LineRowsSumToSubtotal(orderId: string, items: seq<LineRequest>, lineIds: seq<string>)
    requires |lineIds| == |items|
    ensures SumOf(LineRows(orderId, items, lineIds), RowTotal) == RequestSubtotal(items)
  {
    if items != [] {
      LineRowsSumToSubtotal(orderId, items[1..], lineIds[1..]);
      assert LineRows(orderId, items, lineIds)[1..] == LineRows(orderId, items[1..], lineIds[1..]);
    }
  }

  /** Taking one more line's row: the rows of a prefix grow by that line's row. */
  lemma LineRowsStep(orderId: string, items: seq<LineRequest>, lineIds: seq<string>, i: nat)
    requires |lineIds| == |items| && i < |items|
    ensures LineRows(orderId, items[..i + 1], lineIds[..i + 1]) ==
      LineRows(orderId, items[..i], lineIds[..i]) +
      [LineRow(lineIds[i], orderId, items[i].menuItemId, items[i].quantity, items[i].unitPrice,
        items[i].unitPrice * items[i].quantity, items[i].notes)]
  {
  }

  // The order number

  /** `s.slice(-n)`: the last `n` characters, or all of a shorter string. */
  function LastChars(s: string, n: nat): (r: string)
    ensures |r| == if |s| <= n then |s| else n
    ensures r == s[|s| - |r|..]
  {
    if |s| <= n then s else s[|s| - n..]
  }

  /** `ORD-` and the last six digits of the millisecond clock. */
  function ClockOrderNumber(now: nat): (n: string)
    ensures "ORD-" < n && |n| <= 10
  {
    "ORD-" + LastChars(NatToString(now), 6)
  }

  /** The order number's digits read as the clock modulo one million. */
  lemma ClockOrderNumberValue(now: nat)
    ensures ClockOrderNumber(now)[..4] == "ORD-"
    ensures AllDigits(ClockOrderNumber(now)[4..])
    ensures DigitsValue(ClockOrderNumber(now)[4..]) == now % 1000000
    ensures now >= 100000 ==> |ClockOrderNumber(now)| == 10
  {
    var s := NatToString(now);
    var d := LastChars(s, 6);
    assert ClockOrderNumber(now)[4..] == d;
    assert Pow10(6) == 1000000 && Pow10(5) == 100000;
    if now >= 100000 {
      NatToStringLength(now, 5);
    }
    if |s| <= 6 {
      LastDigits(now, |s|);
      assert s[|s| - |s|..] == s;
      DigitsValueOfNatToString(now);
    } else {
      LastDigits(now, 6);
    }
  }

  /** Clocks a multiple of 1000000 ms apart give the same order number. */
  lemma OrderNumbersRepeat(t1: nat, t2: nat)
    requires t1 >= 100000 && t2 >= 100000 && t1 % 1000000 == t2 % 1000000
    ensures ClockOrderNumber(t1) == ClockOrderNumber(t2)
  {
    ClockOrderNumberValue(t1);
    ClockOrderNumberValue(t2);
    var a, b := ClockOrderNumber(t1), ClockOrderNumber(t2);
    DigitsInjective(a[4..], b[4..]);
    assert a == a[..4] + a[4..] && b == b[..4] + b[4..];
  }

  /** The last `k` digits of `n` denote `n` modulo 10^k. */
  lemma {:induction false} LastDigits(n: nat, k: nat)
    requires k <= |NatToString(n)|
    ensures AllDigits(NatToString(n)[|NatToString(n)| - k..])
    ensures DigitsValue(NatToString(n)[|NatToString(n)| - k..]) == n % Pow10(k)
    decreases n
  {
    var s := NatToString(n);
    if k == 0 {
      assert s[|s| - k..] == [];
    } else if n < 10 {
      OneDigit(n);
    } else {
      var h := NatToString(n / 10);
      var c := DigitChar(n % 10);
      assert s == h + [c];
      TailOfAppended(h, c, k);
      LastDigits(n / 10, k - 1);
      var x := h[|h| - (k - 1)..];
      DigitsValueSnoc(x, c);
      var p := Pow10(k - 1);
      assert DigitValue(c) == n % 10;
      assert DigitsValue(x + [c]) == ((n / 10) % p) * 10 + n % 10;
      ModStep(n, p);
    }
  }

  lemma OneDigit(n: nat)
    requires n < 10
    ensures NatToString(n) == [DigitChar(n)]
    ensures DigitsValue(NatToString(n)) == n % Pow10(1)
  {
    assert [DigitChar(n)][..0] == [];
  }

  lemma TailOfAppended(h: string, c: char, k: nat)
    requires 1 <= k <= |h| + 1
    ensures (h + [c])[|h| + 1 - k..] == h[|h| - (k - 1)..] + [c]
  {
  }

  lemma DigitsValueSnoc(x: string, c: char)
    requires AllDigits(x) && IsDigit(c)
    ensures AllDigits(x + [c])
    ensures DigitsValue(x + [c]) == DigitsValue(x) * 10 + DigitValue(c)
  {
    assert (x + [c])[..|x|] == x;
  }

  lemma ModStep(n: nat, p: nat)
    requires p >= 1
    ensures ((n / 10) % p) * 10 + n % 10 == n % (10 * p)
  {
    var q, r := n / 10, n % 10;
    var a, b := q / p, q % p;
    assert q == p * a + b;
    assert n == (10 * p) * a + (10 * b + r);
    ModUnique(n, 10 * p, a, 10 * b + r);
  }

  lemma ModUnique(n: int, m: int, a: int, r: int)
    requires m > 0 && n == m * a + r && 0 <= r < m
    ensures n % m == r
  {
    var a', r' := n / m, n % m;
    assert n == m * a' + r';
    if a < a' {
      MulAtLeast(m, a' - a);
    } else if a > a' {
      MulAtLeast(m, a - a');
    }
  }

  lemma MulAtLeast(m: int, d: int)
    requires m > 0 && d >= 1
    ensures m * d >= m
  {
    assert m * d == m * (d - 1) + m;
    assert m * (d - 1) >= 0;
  }

  /** Equal-length digit strings with the same value are the same string. */
  lemma {:induction false} DigitsInjective(a: string, b: string)
    requires AllDigits(a) && AllDigits(b) && |a| == |b|
    requires DigitsValue(a) == DigitsValue(b)
    ensures a == b
  {
    if a != [] {
      var ia, ib := a[..|a| - 1], b[..|b| - 1];
      var la, lb := DigitValue(a[|a| - 1]), DigitValue(b[|b| - 1]);
      ModUnique(DigitsValue(a), 10, DigitsValue(ia), la);
      ModUnique(DigitsValue(b), 10, DigitsValue(ib), lb);
      assert la == lb;
      assert DigitsValue(ia) == DigitsValue(ib);
      DigitsInjective(ia, ib);
      assert a == ia + [a[|a| - 1]] && b == ib + [b[|b| - 1]];
    }
  }

  // Creation and status update

  /** The client's POST body. */
  datatype OrderRequest = OrderRequest(
    tableId: Value,
    tokenNumber: Value,
    orderType: Value,
    waiterId: Value,
    items: seq<LineRequest>,
    notes: Value)

  /** An `orders` row; `status` is None until a status update writes one (the
      insert leaves the column to its table default). */
  datatype OrderRow = OrderRow(
    id: string,
    orderNumber: string,
    tableId: Value,
    tokenNumber: Value,
    orderType: Value,
    waiterId: Value,
    totals: Totals,
    notes: Value,
    status: Option<Value>)

  function NewOrderRow(req: OrderRequest, orderId: string, now: nat): (row: OrderRow)
    ensures row.totals == OrderTotals(RequestSubtotal(req.items))
    ensures row.orderNumber == ClockOrderNumber(now) && row.status.None?
  {
    OrderRow(orderId, ClockOrderNumber(now), req.tableId, req.tokenNumber, req.orderType, req.waiterId,
      OrderTotals(RequestSubtotal(req.items)), req.notes, None)
  }

  datatype CreateOutcome = Created(orderId: string, orderNumber: string) | Failed

  /** The `orders` rows after the status of order `id` is overwritten. */
  function WithStatus(rows: seq<OrderRow>, id: string, status: Value): (r: seq<OrderRow>)
    ensures |r| == |rows|
    ensures forall k :: 0 <= k < |rows| && rows[k].id == id ==> r[k] == rows[k].(status := Some(status))
    ensures forall k :: 0 <= k < |rows| && rows[k].id != id ==> r[k] == rows[k]
  {
    seq(|rows|, k requires 0 <= k < |rows| => if rows[k].id == id then rows[k].(status := Some(status)) else rows[k])
  }

  /** The two tables the order routes write. */
  class OrderTables {
    var orders: seq<OrderRow>
    var orderItems: seq<LineRow>

    constructor ()
      ensures orders == [] && orderItems == []
    {
      orders := [];
      orderItems := [];
    }

    /** The POST handler inside its transaction. The ids are the `uuidv4()`
        values, `now` is `Date.now()`, and `failAt` says which insert the
        database rejects, if any: 0 for the order, `k + 1` for line `k`. A
        rejected insert rolls every write back; otherwise all are committed. */
    method CreateOrder(req: OrderRequest, orderId: string, lineIds: seq<string>, now: nat, failAt: Option<nat>)
      returns (res: CreateOutcome)
      requires |lineIds| == |req.items|
      modifies this
      ensures res.Failed? <==> failAt.Some? && failAt.value <= |req.items|
      ensures res.Failed? ==> orders == old(orders) && orderItems == old(orderItems)
      ensures res.Created? ==> res == Created(orderId, ClockOrderNumber(now))
      ensures res.Created? ==> orders == old(orders) + [NewOrderRow(req, orderId, now)]
      ensures res.Created? ==> orderItems == old(orderItems) + LineRows(orderId, req.items, lineIds)
    {
      var orders0, items0 := orders, orderItems;
      var orderNumber := "ORD-" + LastChars(NatToString(now), 6);
      var subtotal := ComputeSubtotal(req.items);
      var totals := OrderTotals(subtotal);
      if failAt == Some(0) {
        orders, orderItems := orders0, items0;
        return Failed;
      }
      orders := orders + [OrderRow(orderId, orderNumber, req.tableId, req.tokenNumber, req.orderType,
        req.waiterId, totals, req.notes, None)];
      var i := 0;
      while i < |req.items|
        invariant 0 <= i <= |req.items|
        invariant orders == orders0 + [NewOrderRow(req, orderId, now)]
        invariant orderItems == items0 + LineRows(orderId, req.items[..i], lineIds[..i])
        invariant forall k :: 1 <= k <= i ==> failAt != Some(k)
        invariant failAt != Some(0)
      {
        if failAt == Some(i + 1) {
          orders, orderItems := orders0, items0;
          return Failed;
        }
        var item := req.items[i];
        LineRowsStep(orderId, req.items, lineIds, i);
        orderItems := orderItems + [LineRow(lineIds[i], orderId, item.menuItemId, item.quantity, item.unitPrice,
          item.unitPrice * item.quantity, item.notes)];
        i := i + 1;
      }
      assert req.items[..i] == req.items && lineIds[..i] == lineIds;
      res := Created(orderId, orderNumber);
    }

    /** PUT /:id/status: whatever status is sent is written, with no check
        against the current one; other orders and all lines are untouched. */
    method UpdateOrderStatus(id: string, status: Value)
      modifies this
      ensures orders == WithStatus(old(orders), id, status)
      ensures orderItems == old(orderItems)
    {
      orders := WithStatus(orders, id, status);
    }
  }

  /** Any status can follow any other: the update ignores what was stored. */
  lemma AnyStatusAccepted(rows: seq<OrderRow>, k: nat, status: Value)
    requires k < |rows|
    ensures WithStatus(rows, rows[k].id, status)[k].status == Some(status)
    ensures WithStatus(rows, rows[k].id, status)[k].totals == rows[k].totals
  {
  }
}

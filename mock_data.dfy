/** The demo data and the display-number generators (src/data/mockData.ts).
    The two generators share a module-level counter each, post-incremented on
    every call; they are modelled as a class whose fields are those counters.
    The mock records are kept as constants: they are the application's own
    worked examples, and the lemmas at the end check that their figures agree. */
module MockData {
  import opened Types
  import opened Seqs
  import OrderStore

  // Decimal text of a counter, `String(n)`

  predicate IsDigit(c: char)
  {
    '0' <= c <= '9'
  }

  predicate AllDigits(s: string)
  {
    forall k :: 0 <= k < |s| ==> IsDigit(s[k])
  }

  function DigitChar(d: nat): (c: char)
    requires d < 10
    ensures IsDigit(c)
  {
    (48 + d) as char
  }

  function DigitValue(c: char): (d: nat)
    requires IsDigit(c)
    ensures d < 10
  {
    (c as int - 48) as nat
  }

  /** `String(n)` for a natural number: its decimal digits, no leading zero. */
  function NatToString(n: nat): (s: string)
    ensures 1 <= |s| && AllDigits(s)
    ensures s[0] == '0' ==> n == 0
  {
    if n < 10 then [DigitChar(n)] else NatToString(n / 10) + [DigitChar(n % 10)]
  }

  /** The number a string of decimal digits denotes (leading zeros allowed). */
  function DigitsValue(s: string): nat
    requires AllDigits(s)
  {
    if s == [] then 0 else DigitsValue(s[..|s| - 1]) * 10 + DigitValue(s[|s| - 1])
  }

  /** Reading the decimal text back gives the number. */
  lemma {:induction false} DigitsValueOfNatToString(n: nat)
    ensures DigitsValue(NatToString(n)) == n
  {
    if n >= 10 {
      var s := NatToString(n);
      assert s[..|s| - 1] == NatToString(n / 10);
      DigitsValueOfNatToString(n / 10);
    }
  }

  /** `n` copies of `c`. */
  function Repeat(c: char, n: nat): (s: string)
    ensures |s| == n && forall k :: 0 <= k < n ==> s[k] == c
  {
    if n == 0 then [] else [c] + Repeat(c, n - 1)
  }

  /** `s.padStart(width, c)` with a one-character pad: fill on the left up to
      `width`, never truncate. */
  function PadStart(s: string, width: nat, c: char): (r: string)
    ensures |r| == if |s| >= width then |s| else width
    ensures r[|r| - |s|..] == s
    ensures forall k :: 0 <= k < |r| - |s| ==> r[k] == c
  {
    if |s| >= width then s else Repeat(c, width - |s|) + s
  }

  /** Leading zeros do not change the value of a digit string. */
  lemma {:induction false} LeadingZeros(z: nat, s: string)
    requires AllDigits(s)
    ensures AllDigits(Repeat('0', z) + s)
    ensures DigitsValue(Repeat('0', z) + s) == DigitsValue(s)
  {
    var t := Repeat('0', z) + s;
    if s == [] {
      assert t == Repeat('0', z);
      ZerosValue(z);
    } else {
      var init := s[..|s| - 1];
      assert t[..|t| - 1] == Repeat('0', z) + init;
      LeadingZeros(z, init);
    }
  }

  lemma {:induction false} ZerosValue(z: nat)
    ensures AllDigits(Repeat('0', z)) && DigitsValue(Repeat('0', z)) == 0
  {
    AllZeros(Repeat('0', z));
  }

  lemma {:induction false} AllZeros(s: string)
    requires forall k :: 0 <= k < |s| ==> s[k] == '0'
    ensures AllDigits(s) && DigitsValue(s) == 0
  {
    if s != [] {
      AllZeros(s[..|s| - 1]);
    }
  }

  /** The zero-padded decimal text of `n` reads back as `n`. */
  lemma PaddedValue(n: nat, width: nat)
    ensures AllDigits(PadStart(NatToString(n), width, '0'))
    ensures DigitsValue(PadStart(NatToString(n), width, '0')) == n
  {
    var s := NatToString(n);
    DigitsValueOfNatToString(n);
    if |s| < width {
      LeadingZeros(width - |s|, s);
    }
  }

  /** Distinct counters give distinct padded texts, whatever the width. */
  lemma PaddedInjective(a: nat, b: nat, width: nat)
    requires PadStart(NatToString(a), width, '0') == PadStart(NatToString(b), width, '0')
    ensures a == b
  {
    PaddedValue(a, width);
    PaddedValue(b, width);
  }

  // The generators

  function OrderNumber(counter: nat): (s: string)
    ensures |s| >= 7 && s[..4] == "ORD-" && s[4..] == PadStart(NatToString(counter), 3, '0')
  {
    "ORD-" + PadStart(NatToString(counter), 3, '0')
  }

  function BillNumber(counter: nat): (s: string)
    ensures |s| >= 9 && s[..5] == "BILL-" && s[5..] == PadStart(NatToString(counter), 4, '0')
  {
    "BILL-" + PadStart(NatToString(counter), 4, '0')
  }

  class IdGenerator {
    var orderCounter: nat
    var billCounter: nat

    constructor ()
      ensures orderCounter == 1 && billCounter == 1
    {
      orderCounter := 1;
      billCounter := 1;
    }

    /** `generateOrderNumber`: the text for the current counter, then the counter moves on. */
    method GenerateOrderNumber() returns (s: string)
      modifies this
      ensures s == OrderNumber(old(orderCounter))
      ensures orderCounter == old(orderCounter) + 1 && billCounter == old(billCounter)
    {
      s := "ORD-" + PadStart(NatToString(orderCounter), 3, '0');
      orderCounter := orderCounter + 1;
    }

    /** `generateBillNumber`: same scheme with its own counter and a width of four. */
    method GenerateBillNumber() returns (s: string)
      modifies this
      ensures s == BillNumber(old(billCounter))
      ensures billCounter == old(billCounter) + 1 && orderCounter == old(orderCounter)
    {
      s := "BILL-" + PadStart(NatToString(billCounter), 4, '0');
      billCounter := billCounter + 1;
    }
  }

  /** The first order number handed out is ORD-001. */
  lemma FirstOrderNumber()
    ensures OrderNumber(1) == "ORD-001"
  {
    assert NatToString(1) == "1";
    assert Repeat('0', 1) == "0";
    assert Repeat('0', 2) == "00";
    assert PadStart("1", 3, '0') == "001";
  }

  /** The first bill number handed out is BILL-0001. */
  lemma FirstBillNumber()
    ensures BillNumber(1) == "BILL-0001"
  {
    assert NatToString(1) == "1";
    assert Repeat('0', 1) == "0";
    assert Repeat('0', 2) == "00";
    assert Repeat('0', 3) == "000";
    assert PadStart("1", 4, '0') == "0001";
  }

  /** Counters only grow, so every number handed out differs from every other:
      two counters give the same order (or bill) number only if they are equal. */
  lemma NumbersInjective(a: nat, b: nat)
    ensures OrderNumber(a) == OrderNumber(b) ==> a == b
    ensures BillNumber(a) == BillNumber(b) ==> a == b
  {
    if OrderNumber(a) == OrderNumber(b) {
      assert OrderNumber(a)[4..] == OrderNumber(b)[4..];
      PaddedInjective(a, b, 3);
    }
    if BillNumber(a) == BillNumber(b) {
      assert BillNumber(a)[5..] == BillNumber(b)[5..];
      PaddedInjective(a, b, 4);
    }
  }

  /** A counter of 10^k or more has more than k digits. */
  lemma {:induction false} NatToStringLength(n: nat, k: nat)
    requires n >= Pow10(k)
    ensures |NatToString(n)| > k
  {
    if k > 0 {
      NatToStringLength(n / 10, k - 1);
    }
  }

  function Pow10(k: nat): (p: nat)
    ensures p >= 1
  {
    if k == 0 then 1 else 10 * Pow10(k - 1)
  }

  /** padStart never truncates: from counter 1000 the order number grows past
      seven characters, and from 10000 the bill number past nine, each still
      ending with the counter's full decimal text. */
  lemma NumbersGrow(n: nat)
    ensures OrderNumber(n)[|OrderNumber(n)| - |NatToString(n)|..] == NatToString(n)
    ensures n >= 1000 ==> |OrderNumber(n)| > 7
    ensures n >= 10000 ==> |BillNumber(n)| > 9
  {
    assert Pow10(3) == 1000 && Pow10(4) == 10000;
    if n >= 1000 { NatToStringLength(n, 3); }
    if n >= 10000 { NatToStringLength(n, 4); }
    var p := PadStart(NatToString(n), 3, '0');
    assert OrderNumber(n)[|OrderNumber(n)| - |NatToString(n)|..] == p[|p| - |NatToString(n)|..];
  }

  // The demo records

  const MockUsers: seq<User> := [
    User("1", "Admin User", Admin, Some("1234")),
    User("2", "John Manager", Manager, Some("2345")),
    User("3", "Sarah Cashier", Cashier, Some("3456")),
    User("4", "Mike Waiter", Waiter, Some("4567")),
    User("5", "Chef Kumar", Kitchen, Some("5678")),
    User("6", "Store Manager", Storekeeper, Some("6789"))
  ]

  const MockTables: seq<Table> := [
    Table("1", "Table 1", 2, Available),
    Table("2", "Table 2", 4, Occupied),
    Table("3", "Table 3", 4, Available),
    Table("4", "Table 4", 6, Reserved),
    Table("5", "Table 5", 2, Available),
    Table("6", "Table 6", 4, Billing),
    Table("7", "Table 7", 4, Available),
    Table("8", "Table 8", 8, Available),
    Table("9", "Table 9", 2, Occupied),
    Table("10", "Table 10", 4, Available)
  ]

  const SpiceLevel := Modifier("m1", "Spice Level", [
    ModifierOption("o1", "Mild", 0),
    ModifierOption("o2", "Medium", 0),
    ModifierOption("o3", "Extra Spicy", 0)
  ], true, false)

  const ExtraToppings := Modifier("m2", "Extra Toppings", [
    ModifierOption("o4", "Extra Cheese", 50),
    ModifierOption("o5", "Olives", 30),
    ModifierOption("o6", "Mushrooms", 40)
  ], false, true)

  const MockMenuItems: seq<MenuItem> := [
    MenuItem("1", "Paneer Tikka", "Starters", Prices(280, 260, 280), Veg, true, Some([SpiceLevel])),
    MenuItem("2", "Chicken Tikka", "Starters", Prices(320, 300, 320), NonVeg, true, None),
    MenuItem("3", "Margherita Pizza", "Main Course", Prices(450, 420, 450), Veg, true, Some([ExtraToppings])),
    MenuItem("4", "Butter Chicken", "Main Course", Prices(380, 360, 380), NonVeg, true, None),
    MenuItem("5", "Dal Makhani", "Main Course", Prices(240, 220, 240), Veg, true, None),
    MenuItem("6", "Garlic Naan", "Breads", Prices(60, 55, 60), Veg, true, None),
    MenuItem("7", "Gulab Jamun", "Desserts", Prices(120, 110, 120), Veg, true, None),
    MenuItem("8", "Mango Lassi", "Beverages", Prices(80, 75, 80), Veg, true, None),
    MenuItem("9", "Caesar Salad", "Starters", Prices(220, 200, 220), Veg, true, None),
    MenuItem("10", "Grilled Chicken Burger", "Main Course", Prices(280, 260, 280), NonVeg, true, None)
  ]

  const PaneerLine := OrderItem("item-1", "1", "Paneer Tikka", 2, 280,
    Some([SelectedModifier("m1", "o3", "Extra Spicy", 0)]), None, HOT)

  const LassiLine := OrderItem("item-2", "8", "Mango Lassi", 2, 80, None, None, BAR)

  /** The demo order, created fifteen minutes before `now` (milliseconds). */
  function MockOrder(now: int): Order
  {
    Order("order-1", "ORD-001", Some("2"), Some("Table 2"), DineIn, Preparing,
      [PaneerLine, LassiLine], 720, 36.0, 0.0, 36.0, 0.0, 792.0,
      Some("4"), Some("Mike Waiter"), now - 15 * 60 * 1000, now)
  }

  /** The demo kitchen tickets for that order, eight and three minutes old. */
  function MockKDSTickets(now: int): seq<KDSTicket>
  {
    [
      KDSTicket("ticket-1", "order-1", "ORD-001", Some("Table 2"), HOT, TicketPreparing,
        [PaneerLine], false, now - 8 * 60 * 1000, None, 8),
      KDSTicket("ticket-2", "order-1", "ORD-001", Some("Table 2"), BAR, TicketPending,
        [LassiLine], false, now - 3 * 60 * 1000, None, 3)
    ]
  }

  const MockInventoryItems: seq<InventoryItem> := [
    InventoryItem("1", "Paneer", "Dairy", 25, "kg", 10, 300),
    InventoryItem("2", "Chicken", "Meat", 30, "kg", 15, 250),
    InventoryItem("3", "Tomatoes", "Vegetables", 8, "kg", 10, 40),
    InventoryItem("4", "Onions", "Vegetables", 15, "kg", 10, 30),
    InventoryItem("5", "Rice", "Grains", 50, "kg", 20, 60)
  ]

  /** The demo order's stored figures are the ones its lines give:
      720 = 2·280 + 2·80, tax and service 5% each, total their sum. */
  lemma MockOrderFiguresAgree(now: int)
    ensures OrderStore.Subtotal(MockOrder(now).items) == MockOrder(now).subtotal
    ensures MockOrder(now).taxAmount == MockOrder(now).subtotal as real * 5.0 / 100.0
    ensures MockOrder(now).serviceCharge == MockOrder(now).subtotal as real * 5.0 / 100.0
    ensures MockOrder(now).total == MockOrder(now).subtotal as real + MockOrder(now).taxAmount
      + MockOrder(now).serviceCharge - MockOrder(now).discount + MockOrder(now).roundOff
  {
    var items := MockOrder(now).items;
    assert OrderStore.ModifierTotal(PaneerLine.selectedModifiers) == 0 by {
      var ms := PaneerLine.selectedModifiers.value;
      assert ms[1..] == [];
    }
    assert OrderStore.LineTotal(PaneerLine) == 560;
    assert OrderStore.LineTotal(LassiLine) == 160;
    assert items[1..] == [LassiLine] && items[1..][1..] == [];
    assert SumOf(items, OrderStore.LineTotal) == 560 + SumOf([LassiLine], OrderStore.LineTotal);
    assert SumOf([LassiLine], OrderStore.LineTotal) == 160 + SumOf([], OrderStore.LineTotal);
  }

  function AtStation(station: KitchenStation): OrderItem -> bool
  {
    (i: OrderItem) => i.station == station
  }

  /** Each demo ticket holds exactly the demo order's lines for its station. */
  lemma MockTicketsMatchOrder(now: int)
    ensures |MockKDSTickets(now)| == 2
    ensures forall k :: 0 <= k < 2 ==> MockKDSTickets(now)[k].orderId == MockOrder(now).id
    ensures MockKDSTickets(now)[0].items == Filter(MockOrder(now).items, AtStation(MockKDSTickets(now)[0].station))
    ensures MockKDSTickets(now)[1].items == Filter(MockOrder(now).items, AtStation(MockKDSTickets(now)[1].station))
  {
    var items := MockOrder(now).items;
    assert items == [PaneerLine] + [LassiLine];
    FilterConcat([PaneerLine], [LassiLine], AtStation(HOT));
    FilterConcat([PaneerLine], [LassiLine], AtStation(BAR));
    FilterSingleton(PaneerLine, AtStation(HOT));
    FilterSingleton(LassiLine, AtStation(HOT));
    FilterSingleton(PaneerLine, AtStation(BAR));
    FilterSingleton(LassiLine, AtStation(BAR));
  }
}

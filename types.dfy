/** The application's shared record and enumeration types (src/types/index.ts).
    Identifiers and names are strings; prices, quantities and stock levels are
    integers; amounts derived by a percentage are reals. Optional fields are
    `Option`s. */
module Types {

  datatype Option<T> = None | Some(value: T)

  datatype UserRole = Admin | Manager | Cashier | Waiter | Kitchen | Storekeeper

  datatype User = User(id: string, name: string, role: UserRole, pin: Option<string>)

  datatype TableStatus = Available | Occupied | Reserved | Billing

  datatype Table = Table(id: string, name: string, capacity: int, status: TableStatus)

  // Menu

  datatype FoodType = Veg | NonVeg | Egg

  datatype ModifierOption = ModifierOption(id: string, name: string, priceAdjustment: int)

  datatype Modifier = Modifier(
    id: string,
    name: string,
    options: seq<ModifierOption>,
    required: bool,
    multiSelect: bool)

  datatype Prices = Prices(dineIn: int, takeaway: int, delivery: int)

  datatype MenuItem = MenuItem(
    id: string,
    name: string,
    category: string,
    prices: Prices,
    foodType: FoodType,
    isAvailable: bool,
    modifiers: Option<seq<Modifier>>)

  // Orders

  datatype OrderType = DineIn | Takeaway | Delivery

  datatype OrderStatus = Pending | Preparing | Ready | Served | Completed | Cancelled

  datatype KitchenStation = HOT | COLD | BAR | DESSERT

  datatype SelectedModifier = SelectedModifier(
    modifierId: string,
    optionId: string,
    name: string,
    priceAdjustment: int)

  /** One line of an order. `selectedModifiers` is optional in the source:
      the waiter screen always sends a (possibly empty) list, while stored
      orders may leave it out. */
  datatype OrderItem = OrderItem(
    id: string,
    menuItemId: string,
    name: string,
    quantity: int,
    price: int,
    selectedModifiers: Option<seq<SelectedModifier>>,
    notes: Option<string>,
    station: KitchenStation)

  datatype Order = Order(
    id: string,
    orderNumber: string,
    tableId: Option<string>,
    tableName: Option<string>,
    orderType: OrderType,
    status: OrderStatus,
    items: seq<OrderItem>,
    subtotal: int,
    taxAmount: real,
    discount: real,
    serviceCharge: real,
    roundOff: real,
    total: real,
    waiterId: Option<string>,
    waiterName: Option<string>,
    createdAt: int,
    updatedAt: int)

  // Kitchen display

  datatype TicketStatus = TicketPending | TicketPreparing | TicketReady | Bumped | Hold

  datatype KDSTicket = KDSTicket(
    id: string,
    orderId: string,
    orderNumber: string,
    tableName: Option<string>,
    station: KitchenStation,
    status: TicketStatus,
    items: seq<OrderItem>,
    priority: bool,
    createdAt: int,
    bumpedAt: Option<int>,
    elapsedMinutes: int)

  // Inventory

  datatype InventoryItem = InventoryItem(
    id: string,
    name: string,
    category: string,
    currentStock: int,
    unit: string,
    reorderLevel: int,
    costPrice: int)

  // Notifications

  datatype NotificationType = OrderReady | OrderBumped | NewOrder | Info

  datatype Notification = Notification(
    id: string,
    kind: NotificationType,
    title: string,
    message: string,
    orderId: Option<string>,
    targetRole: Option<UserRole>,
    read: bool,
    createdAt: int)
}

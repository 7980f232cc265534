# Restaurant point-of-sale: a verified model

This project models the logic of a restaurant point-of-sale application.
The application has a React client (waiter ordering screen, kitchen display,
cashier's bill, stock and menu screens, login and role-based navigation) and an
Express/MySQL server (order, menu and kitchen-ticket routes). It states and
proves what that logic promises:

- the draft-order store merges a repeated dish into its line and keeps the
  subtotal current after every change;
- the waiter screen routes dishes to kitchen stations, keeps modifier choices
  consistent and sends a correctly priced order to the kitchen;
- the kitchen display bumps, holds and ages tickets, and its station badges
  agree with its station views;
- the bill splits tax into equal CGST and SGST halves and keeps the total
  non-negative for a discount from 0 to 100 (a range the page's input
  suggests but does not enforce);
- the notification store and its toast show the newest unread notification
  for the user's role;
- the order and bill number generators never repeat, and the demo data's
  figures agree with one another;
- the login PIN pad holds at most four digits, and a login lands each role
  on a page that the route guard admits;
- the route guard and the side navigation agree, entry by entry;
- the stock and menu screens' filters and totals;
- the server's query builders line up every `?` placeholder with its
  parameter, its allow-listed menu update writes exactly the fields sent,
  and menu-item creation applies its defaults and rejects missing fields.

One Dafny module per source file, all at the top level:

- `types.dfy`: the shared records and enumerations.
- `seqs.dfy`: array `filter`/`reduce`/`includes` defined once.
- `sql_text.dfy`: JavaScript request values and SQL text with placeholders.
- The remaining files follow the source files of the same name.

Stateful parts of the source are classes whose fields the methods reassign:
- the order store and the notification store;
- the screens' own state (waiter, kitchen display, login);
- the number generators' counters;
- the server's order tables.

The source's flat loops are `while` loops with invariants, proved against
the functions that specify them:
- the ticket age refresh;
- the server's subtotal;
- the menu update builder.

The nested loops that insert a new menu item's modifiers and their options
are modelled as the recursive functions `ModifierRows` and `OptionRows`,
because the transaction either inserts every row or none.

Money follows the source's formulas exactly:
- prices, quantities and subtotals are integers;
- percentage-derived amounts (tax, service, discount, totals) are exact reals.

## Model

| member | source | states |
|---|---|---|
| OrderStore.FindSameDish | src/store/orderStore.ts:22-25 | the index of the first line with the same menu item and an identical modifier selection, or -1 when no line matches |
| OrderStore.Merged | src/store/orderStore.ts:27-36 | with a matching first line, that line's quantity grows by the incoming quantity; with none, the item is appended |
| OrderStore.Removed | src/store/orderStore.ts:55 | exactly the lines whose id differs are kept, never more lines than before |
| OrderStore.WithQuantity | src/store/orderStore.ts:73-75 | lines with the id get the new quantity (no lower bound), every other field and every other line is unchanged |
| OrderStore.WithStatus | src/store/orderStore.ts:100-104 | only the order with the id gets the new status and timestamp; the others are unchanged |
| OrderStore.Subtotal | src/store/orderStore.ts:38-41 | the subtotal is never negative while no line total is |
| OrderStore.Priced | src/store/orderStore.ts:38-48 | the draft carries the lines and their subtotal |
| OrderStore.Store.constructor | src/store/orderStore.ts:16-18 | no draft and no orders |
| OrderStore.Store.AddItemToOrder | src/store/orderStore.ts:20-50 | the draft (an empty one when there is none) becomes the merged lines with their subtotal; orders unchanged; the subtotal invariant holds |
| OrderStore.Store.RemoveItemFromOrder | src/store/orderStore.ts:52-68 | no change without a draft or its items; otherwise the lines without the id, repriced; the subtotal invariant is kept |
| OrderStore.Store.UpdateItemQuantity | src/store/orderStore.ts:70-89 | no change without a draft or its items; otherwise the quantity is set on the id's lines, repriced; the subtotal invariant is kept |
| OrderStore.Store.ClearCurrentOrder | src/store/orderStore.ts:91 | the draft is dropped, orders unchanged |
| OrderStore.Store.SetCurrentOrder | src/store/orderStore.ts:93 | the draft is replaced, orders unchanged |
| OrderStore.Store.SubmitOrder | src/store/orderStore.ts:95-98 | the order is appended to the orders and the draft is dropped |
| OrderStore.Store.UpdateOrderStatus | src/store/orderStore.ts:100-104 | the orders become WithStatus of the old ones; the draft is unchanged |
| OrderStore.MergedShape | src/store/orderStore.ts:27-36 | a merge keeps the line count exactly when some line matches, an append adds the item last, and every line other than the merged one keeps its place and content |
| OrderStore.MergedSubtotal | src/store/orderStore.ts:29-41 | a merge raises the subtotal by the matched line's unit price times the added quantity; an append by the new line's total |
| OrderStore.MergedSubtotalSamePrice | src/store/orderStore.ts:29-41 | when matching lines carry the item's price, adding always raises the subtotal by the item's line total |
| OrderStore.MergeLaw | src/store/orderStore.ts:21-36 | adding the same dish twice gives one new line holding both quantities |
| OrderStore.RemovedSubtotal | src/store/orderStore.ts:55-59 | the old subtotal is the new one plus the removed lines' totals |
| OrderStore.RemovedPreservesOrder | src/store/orderStore.ts:55 | removal works piecewise over a concatenation, so the kept lines keep their order |
| OrderStore.RemovedAbsent | src/store/orderStore.ts:55 | removing an absent id changes nothing |
| OrderStore.WithQuantitySubtotal | src/store/orderStore.ts:73-80 | setting the quantity of the one line with the id moves the subtotal by its unit price times the change |
| WaiterDashboard.StationForCategory | src/pages/WaiterDashboard.tsx:65-70 | Beverages go to the bar, Desserts to the dessert station, Starters, Main Course and Breads to the hot kitchen, every other category to the cold kitchen, each as an if-and-only-if |
| WaiterDashboard.MockMenuStations | src/pages/WaiterDashboard.tsx:65-70 | no dish of the demo menu is routed to the cold kitchen |
| WaiterDashboard.CanSelectTable | src/pages/WaiterDashboard.tsx:36-40 | the selection rule (available or occupied) is exactly the negation of the button's disabled rule (reserved or billing) |
| WaiterDashboard.MenuForCategory | src/pages/WaiterDashboard.tsx:25-27 | 'All' shows every dish unchanged; any other tab shows exactly the dishes of that category |
| WaiterDashboard.MenuForCategoryIsCategoryFilter | src/pages/WaiterDashboard.tsx:25-27 | the two-way choice equals one filter whose test accepts everything for 'All' |
| WaiterDashboard.EveryTabHasDishes | src/pages/WaiterDashboard.tsx:23-27 | every category tab after 'All' shows at least one dish |
| WaiterDashboard.Selection | src/pages/WaiterDashboard.tsx:336 | the recorded entry carries the modifier id and the option's id, name and price adjustment |
| WaiterDashboard.ChooseSingle | src/pages/WaiterDashboard.tsx:341 | the chosen option comes last, and before it are exactly the earlier entries of other modifiers |
| WaiterDashboard.ToggleMulti | src/pages/WaiterDashboard.tsx:334-339 | checking appends the option; unchecking keeps exactly the entries with another option id |
| WaiterDashboard.ChooseSingleHoldsOne | src/pages/WaiterDashboard.tsx:341 | after a single-select choice the modifier holds exactly one entry, and other modifiers' entries are untouched |
| WaiterDashboard.ToggleMultiRoundTrip | src/pages/WaiterDashboard.tsx:334-339 | checking then unchecking an option that was not selected restores the selection |
| WaiterDashboard.NewLine | src/pages/WaiterDashboard.tsx:51-60 | the new line has quantity 1, the dine-in price, the routed station, the chosen modifiers and an id built from the clock |
| WaiterDashboard.NewLineTotal | src/pages/WaiterDashboard.tsx:51-60 | a new line costs its dine-in price plus the chosen price adjustments |
| WaiterDashboard.KitchenOrder | src/pages/WaiterDashboard.tsx:78-96 | a pending dine-in order for the table with the draft's items, tax and service each 5% of the subtotal, no discount or round-off, and the total their sum |
| WaiterDashboard.KitchenOrderSubtotal | src/pages/WaiterDashboard.tsx:86-91 | for a priced draft the order's subtotal is the lines' subtotal and its total is 1.1 times it |
| WaiterDashboard.Decreased | src/pages/WaiterDashboard.tsx:236-242 | above quantity 1 the minus button lowers the quantity by one; at 1 or below it removes the line |
| WaiterDashboard.OnlyLineWithId | src/pages/WaiterDashboard.tsx:236-242 | with unique ids, the lines carrying a line's id are that line alone |
| WaiterDashboard.DecreasedSubtotal | src/pages/WaiterDashboard.tsx:236-242 | a minus press lowers the subtotal by one unit price, and at quantity 1 the line is gone |
| WaiterDashboard.IncreasedSubtotal | src/pages/WaiterDashboard.tsx:250 | a plus press raises the subtotal by one unit price |
| WaiterDashboard.WaiterPage.constructor | src/pages/WaiterDashboard.tsx:15-18 | no table, the 'All' tab, no chooser open and no modifiers chosen |
| WaiterDashboard.WaiterPage.HandleTableSelect | src/pages/WaiterDashboard.tsx:36-40 | a selectable table becomes the selection, any other leaves it; nothing else changes |
| WaiterDashboard.WaiterPage.ChangeTable | src/pages/WaiterDashboard.tsx:141 | the table selection is cleared, nothing else changes |
| WaiterDashboard.WaiterPage.SelectCategory | src/pages/WaiterDashboard.tsx:151 | the tab becomes the category, nothing else changes |
| WaiterDashboard.WaiterPage.HandleAddItem | src/pages/WaiterDashboard.tsx:42-63 | a dish with modifiers opens the chooser with an empty selection; any other is merged into the draft as a new line |
| WaiterDashboard.WaiterPage.ChooseOption | src/pages/WaiterDashboard.tsx:333-343 | a multi-select modifier toggles the option, a single-select one replaces the modifier's choice |
| WaiterDashboard.WaiterPage.ConfirmModifiers | src/pages/WaiterDashboard.tsx:359-362 | the chooser's dish is merged into the draft with the chosen modifiers and the chooser closes |
| WaiterDashboard.WaiterPage.CloseModifiers | src/pages/WaiterDashboard.tsx:311 | the chooser closes, nothing else changes |
| WaiterDashboard.WaiterPage.HandleSendToKitchen | src/pages/WaiterDashboard.tsx:72-101 | refused, with nothing changed, unless a table is selected and the draft has items; otherwise the order is appended with the next order number, the draft and the table are cleared and only the order counter advances |
| WaiterDashboard.CanSend | src/pages/WaiterDashboard.tsx:72-76 | sending is allowed exactly when a table is chosen and the draft has a line, a draft without a line list counting as empty |
| WaiterDashboard.WaiterPage.DecreaseQuantity | src/pages/WaiterDashboard.tsx:236-242 | the draft becomes Decreased of its lines, repriced; no change without a draft |
| WaiterDashboard.WaiterPage.IncreaseQuantity | src/pages/WaiterDashboard.tsx:250 | the line's quantity goes up by one, repriced; no change without a draft |
| WaiterDashboard.WaiterPage.RemoveLine | src/pages/WaiterDashboard.tsx:258 | the line is removed by id, repriced; no change without a draft |
| Kds.ElapsedMinutes | src/pages/KDS.tsx:23 | the whole minutes since creation, rounded down: m minutes of 60000 ms fit in the elapsed time and m + 1 do not |
| Kds.ElapsedMonotonic | src/pages/KDS.tsx:18-29 | a later clock reading never gives a smaller age |
| Kds.BumpTicket | src/pages/KDS.tsx:33-41 | the ticket with the id becomes bumped with the bump time; every other ticket is unchanged and the length is kept |
| Kds.HoldToggle | src/pages/KDS.tsx:47 | a held ticket resumes as preparing, every other status becomes held, and pending is never produced |
| Kds.HoldTwice | src/pages/KDS.tsx:43-51 | pressing hold twice on a ticket that is not held leaves it preparing |
| Kds.Held | src/pages/KDS.tsx:43-51 | only the ticket with the id has its status toggled |
| Kds.Refreshed | src/pages/KDS.tsx:20-25 | every ticket's age is recomputed from the clock and no other field changes |
| Kds.Visible | src/pages/KDS.tsx:31 | exactly the tickets of the station that are not bumped |
| Kds.StationCount | src/pages/KDS.tsx:89 | the badge number never exceeds the number of tickets |
| Kds.BadgeMatchesView | src/pages/KDS.tsx:89-104 | the station badge counts exactly the tickets the station's view lists |
| Kds.BumpHidesTicket | src/pages/KDS.tsx:31-41 | after a bump each station lists what it listed before, in order, minus the bumped ticket |
| Kds.BumpNeverAddsTickets | src/pages/KDS.tsx:89 | a bump never raises a station's count |
| Kds.RefreshKeepsViews | src/pages/KDS.tsx:18-31 | refreshing ages commutes with the station filter: no ticket appears or disappears |
| Kds.BumpIgnoresHold | src/pages/KDS.tsx:181 | the Bump button is disabled for a held ticket, yet the bump handler still bumps it |
| Kds.BumpEnabled | src/pages/KDS.tsx:181 | the Bump button is enabled exactly when pressing hold would put the ticket on hold |
| Kds.UrgencyOf | src/pages/KDS.tsx:53-63 | under 5 minutes fresh, 5 to under 10 waiting, 10 or more late, each as an if-and-only-if |
| Kds.UrgencyMonotonic | src/pages/KDS.tsx:53-63 | an older ticket is never less urgent |
| Kds.TimeColor | src/pages/KDS.tsx:53-57 | green under 5 minutes, amber under 10, red otherwise |
| Kds.BorderColor | src/pages/KDS.tsx:59-63 | the border uses the same thresholds, with a thicker red border when late |
| Kds.ColoursFollowUrgency | src/pages/KDS.tsx:53-63 | two ages get the same time colour, and the same border, exactly when they have the same urgency |
| Kds.MockTicketAges | src/data/mockData.ts:257-303 | the demo tickets are 8 and 3 minutes old after a refresh, so one is waiting and one is fresh |
| Kds.KdsBoard.constructor | src/pages/KDS.tsx:11-12 | the hot station is selected and the tickets are the initial list |
| Kds.KdsBoard.SelectStation | src/pages/KDS.tsx:93 | the station changes and the tickets do not |
| Kds.KdsBoard.HandleBump | src/pages/KDS.tsx:33-41 | the tickets become BumpTicket of the old ones |
| Kds.KdsBoard.HandleHold | src/pages/KDS.tsx:43-51 | the tickets become Held of the old ones |
| Kds.KdsBoard.Tick | src/pages/KDS.tsx:18-29 | the tickets become Refreshed of the old ones at the given clock reading |
| BillingPage.Summary | src/pages/Billing.tsx:19-23 | tax and service charge are each 5% of the subtotal, the discount is that percentage of the subtotal, CGST and SGST are equal halves adding up to the tax, and the total is subtotal plus tax plus service minus discount |
| BillingPage.TotalIsScaledSubtotal | src/pages/Billing.tsx:20-23 | the total is the subtotal scaled by (110 - discount)/100 |
| BillingPage.UndiscountedMatchesKitchenOrder | src/pages/WaiterDashboard.tsx:86-91 | without a discount the bill's total and tax equal those the waiter screen stored on the order |
| BillingPage.DiscountBounds | src/pages/Billing.tsx:98-105 | with a non-negative subtotal and a discount in the input's 0 to 100 range the total is non-negative, and a larger discount never raises it |
| BillingPage.MockBill | src/data/mockData.ts:222-248 | the demo order's bill has CGST 18, SGST 18, service 36 and total 792, the total the demo order records |
| BillingPage.NoOrderZeroBill | src/pages/Billing.tsx:19-23 | with no order selected every figure of the bill reads 0, whatever the discount |
| BillingPage.BillableTables | src/pages/Billing.tsx:16 | exactly the occupied tables and the tables in billing |
| Notifications.Fresh | src/store/notificationStore.ts:18-23 | the notification keeps the draft's fields, takes the given id and time and starts unread |
| Notifications.UnreadCount | src/store/notificationStore.ts:55-57 | never more unread than notifications |
| Notifications.ForRole | src/store/notificationStore.ts:59-63 | exactly the notifications without a target role or targeted at the role |
| Notifications.MarkedRead | src/store/notificationStore.ts:37-43 | the notification with the id is read, every other is unchanged, and the length is kept |
| Notifications.AllRead | src/store/notificationStore.ts:45-49 | every notification is read and nothing else changes |
| Notifications.Without | src/store/notificationStore.ts:30-34 | exactly the notifications with another id remain |
| Notifications.NotificationStore.constructor | src/store/notificationStore.ts:15 | the list starts empty |
| Notifications.NotificationStore.Add | src/store/notificationStore.ts:17-27 | the new unread notification is put in front of the list |
| Notifications.NotificationStore.AutoRemove | src/store/notificationStore.ts:30-34 | the notification with the id is removed, nothing else |
| Notifications.NotificationStore.MarkAsRead | src/store/notificationStore.ts:37-43 | the list becomes MarkedRead of the old one |
| Notifications.NotificationStore.MarkAllAsRead | src/store/notificationStore.ts:45-49 | the list becomes AllRead of the old one |
| Notifications.NotificationStore.ClearNotifications | src/store/notificationStore.ts:51-53 | the list is empty |
| Notifications.NotificationStore.GetUnreadCount | src/store/notificationStore.ts:55-57 | returns the unread count without changing the list |
| Notifications.NotificationStore.GetNotificationsForRole | src/store/notificationStore.ts:59-63 | returns the role's notifications without changing the list |
| Notifications.AddedIsNewestUnread | src/store/notificationStore.ts:17-27 | an add grows the list by one and the unread count by one |
| Notifications.AutoRemoveUndoesAdd | src/store/notificationStore.ts:26-34 | removing a notification whose id was new restores the list as it was before the add |
| Notifications.MarkedReadIdempotent | src/store/notificationStore.ts:37-43 | marking the same id read twice is the same as once |
| Notifications.AllReadLeavesNoneUnread | src/store/notificationStore.ts:45-57 | after marking all read the length is unchanged and the unread count is 0 |
| Notifications.UnreadCountCounts | src/store/notificationStore.ts:55-57 | the unread count is the number of false read flags |
| Notifications.ReadFlags | src/store/notificationStore.ts:55-57 | the read flag of each notification, in order |
| Notifications.MarkedReadLowersCount | src/store/notificationStore.ts:37-57 | marking read never raises the unread count, and lowers it when an unread notification has the id |
| Notifications.ForRoleKeepsOrder | src/store/notificationStore.ts:59-63 | the role filter works piecewise over a concatenation, so it keeps the list's order |
| Notifications.FirstUnread | src/components/ToastNotification.tsx:11 | none exactly when every entry is read; otherwise the unread entry that comes first |
| Notifications.UserNotifications | src/components/ToastNotification.tsx:10 | no user gives no candidates; a user gets the notifications for their role |
| Notifications.LatestUnread | src/components/ToastNotification.tsx:10-21 | with no user nothing is shown; what is shown is an unread notification in the list that concerns the user's role; nothing is shown exactly when every such notification is read |
| Notifications.NewestIsShown | src/components/ToastNotification.tsx:10-11 | a newly added notification for the user's role is the one shown, because adds prepend |
| Notifications.Dismissed | src/components/ToastNotification.tsx:40 | dismissing marks the shown notification read, and does nothing when none is shown |
| Notifications.DismissMarksShown | src/components/ToastNotification.tsx:40 | a dismiss lowers the unread count and leaves every other notification unchanged |
| MockData.NatToString | src/data/mockData.ts:362 | `String(n)`: at least one character, all digits, with no leading zero except for 0 itself |
| MockData.DigitsValueOfNatToString | src/data/mockData.ts:362 | reading the decimal string back gives the number |
| MockData.PadStart | src/data/mockData.ts:362 | `padStart`: the string grows to the width, never shrinks, ends with the original and is filled in front with the pad character |
| MockData.LeadingZeros | src/data/mockData.ts:362 | leading zeros do not change a decimal string's value |
| MockData.PaddedValue | src/data/mockData.ts:362 | a zero-padded counter still reads back as the counter |
| MockData.PaddedInjective | src/data/mockData.ts:362 | two counters with the same padded string are equal |
| MockData.OrderNumber | src/data/mockData.ts:361-363 | "ORD-" followed by the counter padded with zeros to three digits |
| MockData.BillNumber | src/data/mockData.ts:367-369 | "BILL-" followed by the counter padded with zeros to four digits |
| MockData.IdGenerator.constructor | src/data/mockData.ts:360-366 | both counters start at 1 |
| MockData.IdGenerator.GenerateOrderNumber | src/data/mockData.ts:361-363 | returns the order number of the current counter and advances only the order counter |
| MockData.IdGenerator.GenerateBillNumber | src/data/mockData.ts:367-369 | returns the bill number of the current counter and advances only the bill counter |
| MockData.FirstOrderNumber | src/data/mockData.ts:360-363 | the first order number is "ORD-001" |
| MockData.FirstBillNumber | src/data/mockData.ts:366-369 | the first bill number is "BILL-0001" |
| MockData.NumbersInjective | src/data/mockData.ts:361-369 | different counters give different order numbers and different bill numbers, so successive calls never repeat |
| MockData.NatToStringLength | src/data/mockData.ts:362 | a number of at least 10^k has more than k digits |
| MockData.NumbersGrow | src/data/mockData.ts:362-368 | padding never truncates: the counter's digits end the number, and counters from 1000 (orders) or 10000 (bills) give longer numbers |
| MockData.MockOrderFiguresAgree | src/data/mockData.ts:214-248 | the demo order's subtotal is its lines' total, tax and service are 5% each and the total is their sum |
| MockData.MockTicketsMatchOrder | src/data/mockData.ts:257-303 | the two demo tickets belong to the demo order and each holds exactly that order's lines for its station |
| Login.FindUser | src/pages/Login.tsx:48 | none exactly when no user has both the role and the PIN; otherwise a listed user with both |
| Login.FindUserFirst | src/pages/Login.tsx:48 | the lookup returns the first matching user |
| Login.LandingRoute | src/pages/Login.tsx:55-74 | waiters land on /waiter, the kitchen on /kds, cashiers on /billing, admins and managers on /dashboard, storekeepers on /inventory |
| Login.Attempt | src/pages/Login.tsx:37-79 | no role and an empty PIN are reported before the lookup; login succeeds exactly when some user has the role and the PIN, and then lands on that user's route |
| Login.MockWaiterLogin | src/data/mockData.ts:4-50 | the demo waiter logs in with 4567 and lands on /waiter |
| Login.MockAdminLogin | src/data/mockData.ts:4-50 | the demo admin logs in with 1234 and lands on /dashboard |
| Login.MockWrongRole | src/data/mockData.ts:4-50 | the waiter's PIN does not open the admin role |
| Login.LoginPage.constructor | src/pages/Login.tsx:30-31 | no role and an empty PIN |
| Login.LoginPage.SelectRole | src/pages/Login.tsx:30 | the role is chosen and the PIN is kept |
| Login.LoginPage.HandlePinInput | src/pages/Login.tsx:81-85 | a digit is appended only while the PIN is shorter than four; the PIN never exceeds four characters |
| Login.LoginPage.HandleBackspace | src/pages/Login.tsx:87-89 | the last character is removed, and an empty PIN stays empty |
| Login.LoginPage.ClearPin | src/pages/Login.tsx:166 | the PIN is emptied and the role is kept |
| Login.LoginPage.HandleLogin | src/pages/Login.tsx:37-79 | the outcome is Attempt of the role and PIN; a wrong PIN clears the PIN, any other outcome keeps it |
| Login.FiveDigits | src/pages/Login.tsx:81-85 | typing five digits into an empty PIN keeps only the first four, which enables the Login button (line 177) |
| Login.EnabledLoginHasPin | src/pages/Login.tsx:37-46 | with the Login button enabled (exactly four digits) and a role chosen, neither the missing-role nor the missing-PIN error can occur |
| Login.LoginEnabled | src/pages/Login.tsx:177 | the Login button is enabled only with a non-empty PIN |
| AppRoutes.Guard | src/App.tsx:16-31 | an unauthenticated visitor is sent to /login; an authenticated one sees the page exactly when there is no role list or no user, or the user's role is in the list |
| AppRoutes.AllowedRolesFor | src/App.tsx:45-111 | no roles exactly when no protected route has the path; otherwise the role list of a route with that path |
| AppRoutes.TrimSlashes | src/App.tsx:45-111 | the path with its trailing slashes removed: a prefix of the path not ending in a slash, followed only by slashes |
| AppRoutes.RoutePath | src/App.tsx:45-111 | the form a path is matched in (routes ignore case and an optional trailing slash): never empty, and `/` or not ending in a slash |
| AppRoutes.Visit | src/App.tsx:45-111 | a path matching /login or / shows the login page; a page is shown only for the path's route form and only when authenticated; no route exactly when the route form is neither of those nor a protected path |
| AppRoutes.RoutePathCanonical | src/App.tsx:45-111 | a path with no upper-case letter and no trailing slash is matched as itself |
| AppRoutes.TablePathsCanonical | src/App.tsx:45-111 | every protected path and /login is matched as itself |
| AppRoutes.TrimLower | src/App.tsx:45-111 | dropping trailing slashes and lower-casing commute |
| AppRoutes.RoutePathIdempotent | src/App.tsx:45-111 | a route form is its own route form |
| AppRoutes.TrailingSlashIgnored | src/App.tsx:45-111 | a trailing slash in the path does not change what a visit shows |
| AppRoutes.CaseIgnored | src/App.tsx:45-111 | upper-case letters in the path do not change what a visit shows |
| AppRoutes.PathsDistinct | src/App.tsx:47-110 | no two protected routes share a path |
| AppRoutes.UnauthenticatedRedirected | src/App.tsx:22-24 | every protected page, however its path is spelled, sends an unauthenticated visitor to the login page |
| AppRoutes.GuardFollowsTable | src/App.tsx:26-30 | a logged-in user sees a protected page (by any spelling of its path) exactly when the route table admits the user's role, and is sent to the login page otherwise |
| AppRoutes.RouteAt | src/App.tsx:47-110 | the k-th protected page is shown exactly when the user's role is in its own role list |
| AppRoutes.AdminAndManagerEverywhere | src/App.tsx:47-110 | admins and managers are admitted to every protected route |
| AppRoutes.LandingPagesAdmitted | src/App.tsx:47-110 | the page each role lands on after login admits that role |
| Layout.AllowedNavItems | src/components/Layout.tsx:60-62 | the sidebar keeps exactly the entries whose roles include the logged-in user's role |
| Layout.NoUserNoNavigation | src/components/Layout.tsx:60-62 | with nobody logged in the sidebar is empty |
| Layout.AdminAndManagerSeeAll | src/components/Layout.tsx:49-62 | admins and managers see every entry, in order |
| Layout.AdminAndManagerListed | src/components/Layout.tsx:49-58 | every entry lists admin and manager |
| Layout.Paths | src/components/Layout.tsx:49-58 | the paths of the entries, position by position |
| Layout.WaiterNav | src/components/Layout.tsx:49-62 | a waiter sees only Waiter POS |
| Layout.KitchenNav | src/components/Layout.tsx:49-62 | the kitchen sees only Kitchen |
| Layout.StorekeeperNav | src/components/Layout.tsx:49-62 | a storekeeper sees only Inventory |
| Layout.StorekeeperListed | src/components/Layout.tsx:49-58 | Inventory is the only entry listing the storekeeper |
| Layout.CashierNav | src/components/Layout.tsx:49-62 | a cashier sees Billing then Reports |
| Layout.CashierShown | src/components/Layout.tsx:49-62 | a cashier's sidebar is exactly the Billing and Reports entries |
| Layout.CashierEntries | src/components/Layout.tsx:49-62 | the entries shown to a cashier are exactly those at positions 3 and 6 |
| Layout.NavMatchesGuard | src/components/Layout.tsx:49-62 | an entry is in a user's sidebar exactly when the route guard lets that user open its page |
| Layout.EveryPageHasEntry | src/components/Layout.tsx:49-58 | the sidebar has one entry per protected route, in the same order, with the same path and the same roles |
| Inventory.LowStockItems | src/pages/Inventory.tsx:10 | the low-stock list holds exactly the items whose stock is at or below the reorder level |
| Inventory.IsLow | src/pages/Inventory.tsx:10 | the low-stock test holds exactly for the items whose row carries the Low Stock badge |
| Inventory.BadgeOf | src/pages/Inventory.tsx:139-146 | the badge reads Low Stock exactly when stock is at or below the reorder level |
| Inventory.BadgeAgreesWithList | src/pages/Inventory.tsx:139-146 | a row carries the Low Stock badge exactly when its item is in the low-stock list |
| Inventory.LowStockKeepsOrder | src/pages/Inventory.tsx:10 | the low-stock filter keeps the order of the inventory |
| Inventory.TotalValueSplits | src/pages/Inventory.tsx:12 | the inventory's total value is the low-stock items' value plus the in-stock items' value |
| Inventory.TotalValue | src/pages/Inventory.tsx:12 | with no negative stock or cost the total value is not negative |
| Inventory.MockLowStock | src/data/mockData.ts:306-357 | among the demo stock only the third item is low |
| Inventory.MockTotalValue | src/data/mockData.ts:306-357 | the demo stock is worth 18770 |
| MenuManagement.Distinct | src/pages/MenuManagement.tsx:14 | a de-duplicated list with exactly the same members |
| MenuManagement.DistinctFirstAppearanceOrder | src/pages/MenuManagement.tsx:14 | de-duplication keeps the order of first appearance, as a JavaScript Set does |
| MenuManagement.CategoriesOf | src/pages/MenuManagement.tsx:14 | the category of each item, position by position |
| MenuManagement.CategoryTabs | src/pages/MenuManagement.tsx:14 | "All" comes first and the other tabs are exactly the items' categories; with no category named "All" no tab repeats |
| MenuManagement.LowerChar | src/pages/MenuManagement.tsx:17 | upper-case ASCII letters become lower case, everything else is kept |
| MenuManagement.Lower | src/pages/MenuManagement.tsx:17 | lower-cases a string character by character |
| MenuManagement.LowerIdempotent | src/pages/MenuManagement.tsx:17 | lower-casing twice is lower-casing once |
| MenuManagement.FilteredItems | src/pages/MenuManagement.tsx:16-20 | the shown items are exactly those whose lower-cased name contains the lower-cased query and whose category matches the tab ("All" matches every item) |
| MenuManagement.SearchIgnoresQueryCase | src/pages/MenuManagement.tsx:17 | the query's case does not change whether an item matches |
| MenuManagement.NoFilterShowsAll | src/pages/MenuManagement.tsx:11-20 | with the initial empty search and the "All" tab every item is shown, in order |
| MenuManagement.EmptySearchFiltersByCategory | src/pages/MenuManagement.tsx:16-20 | with an empty search and a category tab exactly that category's items are shown |
| MenuManagement.FilteredKeepsOrder | src/pages/MenuManagement.tsx:16-20 | filtering keeps the menu's order |
| SqlText.Or | backend/routes/menu.js:133-143 | `v \|\| d` keeps a truthy value and otherwise falls back to the default |
| SqlText.Get | backend/routes/menu.js:98-112 | reading a missing body field gives undefined, a present one its value |
| SqlText.Prop | backend/routes/menu.js:158-160 | reading a property of null or undefined throws; of an object it gives the field or undefined |
| SqlText.Join | backend/routes/menu.js:234 | joining nothing gives nothing, joining one part gives that part, and joining two or more gives the first part, the separator, then the join of the rest |
| BackendOrders.BuildOrdersQuery | backend/routes/orders.js:9-24 | a status filter and an order-type filter are appended, each with one placeholder, exactly when given and non-empty; the parameters follow the placeholders in order; the query ends newest first |
| BackendOrders.ComputeSubtotal | backend/routes/orders.js:80-84 | the loop's subtotal is the sum of unit price times quantity over the request's lines |
| BackendOrders.RequestSubtotal | backend/routes/orders.js:80-84 | the server's subtotal is never negative while no line asks for a negative price or quantity |
| BackendOrders.OrderTotals | backend/routes/orders.js:86-88 | tax and service charge are 5% of the subtotal each and the total is their sum with the subtotal |
| BackendOrders.TotalsMatchBill | backend/routes/orders.js:86-88 | the server's totals equal the billing screen's with no discount: 110% of the subtotal |
| BackendOrders.AsRequests | backend/routes/orders.js:97-103 | an assumed wire format, since the client never sends its order: each client line becomes, position by position, the request line whose menu item, quantity and notes are the line's and whose unit price is the line's snapshot price, the fields the server reads from each item |
| BackendOrders.ClientSubtotalAddsModifiers | backend/routes/orders.js:80-84 | under the assumed wire format of AsRequests, the client's subtotal is the server's subtotal plus the modifier charges, which the server does not add |
| BackendOrders.LineRows | backend/routes/orders.js:97-104 | one order_items row per request line, with its own id, the order's id and a total of unit price times quantity |
| BackendOrders.LineRowsSumToSubtotal | backend/routes/orders.js:80-104 | the inserted lines' totals add up to the order's subtotal |
| BackendOrders.LastChars | backend/routes/orders.js:78 | `slice(-n)` keeps the last n characters, or the whole string when shorter |
| BackendOrders.ClockOrderNumberValue | backend/routes/orders.js:78 | the order number is "ORD-" followed by digits whose value is the clock modulo 1000000, ten characters once the clock has six digits |
| BackendOrders.ClockOrderNumber | backend/routes/orders.js:78 | the order number starts with "ORD-", has something after it and is at most ten characters long |
| BackendOrders.OrderNumbersRepeat | backend/routes/orders.js:78 | two clocks that agree modulo 1000000 give the same order number |
| BackendOrders.NewOrderRow | backend/routes/orders.js:77-95 | the inserted order carries the totals of its lines and the clock's order number, with no status set |
| BackendOrders.WithStatus | backend/routes/orders.js:129 | every order with the id gets the new status and every other order is unchanged |
| BackendOrders.OrderTables.constructor | backend/routes/orders.js:62-66 | both tables start empty |
| BackendOrders.OrderTables.CreateOrder | backend/routes/orders.js:62-121 | a failing insert rolls both tables back; otherwise the order row and one row per line are appended and the id and order number are returned |
| BackendOrders.OrderTables.UpdateOrderStatus | backend/routes/orders.js:124-131 | the status of the orders with the id becomes the body's status, whatever it is; order lines are unchanged |
| BackendOrders.AnyStatusAccepted | backend/routes/orders.js:127-129 | any status value is written, and the totals are kept |
| BackendKds.BuildTicketsQuery | backend/routes/kds.js:7-22 | bumped tickets are always excluded; a station filter with one placeholder is added exactly when the station is given and non-empty; oldest first |
| BackendMenu.BuildItemsQuery | backend/routes/menu.js:22-41 | a category filter with one placeholder exactly when given and non-empty, the available-only clause exactly when `available` is the string "true", ordered by name |
| BackendMenu.SentFields | backend/routes/menu.js:220-225 | the fields written are exactly the allowed fields whose value is not undefined |
| BackendMenu.Assignments | backend/routes/menu.js:222 | one `field = ?` clause per field |
| BackendMenu.Columns | backend/routes/menu.js:222 | the text before each placeholder of the assignments |
| BackendMenu.SentValues | backend/routes/menu.js:223 | the values of the given fields, in order |
| BackendMenu.UpdateFor | backend/routes/menu.js:217-236 | 400 exactly when no allowed field is sent; otherwise each placeholder of the UPDATE is labelled by its column, in allowed order, then the id, and the values line up with them; the statement is `UPDATE menu_items SET `, the sent columns' `col = ?` assignments joined by commas, then ` WHERE id = ?` |
| BackendMenu.UpdateLabels | backend/routes/menu.js:233-235 | the UPDATE's placeholders are labelled by the sent columns then the id |
| BackendMenu.BuildUpdate | backend/routes/menu.js:217-236 | the loop builds exactly the update UpdateFor describes |
| BackendMenu.Restrict | backend/routes/menu.js:211-221 | the body cut down to the allowed fields, which keeps their values |
| BackendMenu.OtherKeysIgnored | backend/routes/menu.js:220-225 | body fields outside the allowed list have no effect on the update |
| BackendMenu.NullIsWritten | backend/routes/menu.js:221 | a field sent as null is written, since only undefined is skipped |
| BackendMenu.AllowedFieldsLong | backend/routes/menu.js:211-215 | every allowed column name has at least four characters |
| BackendMenu.IdNeverWritten | backend/routes/menu.js:211-225 | a body can never change an item's id |
| BackendMenu.OptionRows | backend/routes/menu.js:165-178 | the options throw exactly when some entry is null or undefined; otherwise one available row per option under the modifier, with the adjustment defaulting to 0 |
| BackendMenu.ModifierRows | backend/routes/menu.js:148-180 | one modifier row per entry, numbered in order under the item, named after the entry, with both flags defaulting to false, and every option under one of them |
| BackendMenu.ModifierRowsFail | backend/routes/menu.js:148-180 | the inserts throw exactly when some modifier or one of its options is null or undefined |
| BackendMenu.ModifierRowsOptions | backend/routes/menu.js:149-179 | the option rows inserted are each entry's option rows, one entry after another |
| BackendMenu.EntryOptionsKept | backend/routes/menu.js:148-180 | when the rows are inserted, no entry's option list throws |
| BackendMenu.ModifierRowsEntry | backend/routes/menu.js:165-178 | the option rows inserted under the k-th modifier are exactly the rows of that entry's own options, in order |
| BackendMenu.ModifierRowsGrouped | backend/routes/menu.js:149-179 | the option rows are inserted modifier by modifier, in the order of the modifiers |
| BackendMenu.OptionRowsThrowAlike | backend/routes/menu.js:165-178 | whether the options throw does not depend on the modifier they belong to |
| BackendMenu.CreateMenuItem | backend/routes/menu.js:92-202 | 400 exactly when a required field is falsy; a throwing modifier rolls everything back; otherwise the item is available, keeps the name, category, food type and station sent, stores a missing description, subcategory and image as null, takeaway and delivery prices fall back to dine-in, GST to 5, preparation time to 15, and its modifier and option rows are exactly those ModifierRows builds from the modifiers array |
| BackendMenu.ZeroPriceRejected | backend/routes/menu.js:115 | a dine-in price of 0 is reported as a missing field |
| BackendMenu.DefaultsApplied | backend/routes/menu.js:139-142 | without the optional prices, GST and time the defaults are stored |
| BackendMenu.FlagsDefaultToFalse | backend/routes/menu.js:159-160 | a modifier without its flags is stored as neither required nor multi-select |
| BackendMenu.AdjustmentDefaultsToZero | backend/routes/menu.js:174 | an option without an adjustment is stored with 0 |
| BackendMenu.CreatedModifier | backend/routes/menu.js:149-179 | the k-th modifier of a created item is stored under the entry's name, with exactly the rows of its own options, in order |
| BackendMenu.CreatedOptionsGrouped | backend/routes/menu.js:149-179 | a created item's option rows are stored modifier by modifier |
| BackendMenu.StoredAdjustmentDefaultsToZero | backend/routes/menu.js:173-174 | an option sent without a price adjustment is stored by the handler with 0 |

## Left out

- Rendering: JSX, styling, the theme toggle, the sidebar's open/close effect, toasts and the presentational components are not modelled; they compute nothing the model needs.
- The login session store (`authStore`) is not part of this model: a login is reported as an outcome carrying the user, and the guard and navigation take the session's user as a parameter.
- The static pages (dashboard, reports, settings) and the pass-through CRUD routes for users, settings, tables, inventory and reports have no logic of their own.
- Timers: the kitchen display's once-a-second refresh and the notification's 30-second removal are explicit operations (`Tick`, `AutoRemove`) taking the clock or the id.
- `Date.now()`, `uuidv4()` and `Math.random()` are parameters. Modifier and option rows created with an item are linked by the modifier's position in the request instead of a generated id.
- JavaScript numbers are modelled as exact integers and reals: floating-point rounding and `toFixed(2)` display formatting are not modelled.
- Lower-casing in the menu search covers ASCII letters only; other characters are kept as they are.
- SQL text is a sequence of text fragments and placeholders. Text fragments written by the routes contain no `?`, so every placeholder is a fragment; the database driver's substitution itself is not modelled.
- Database and HTTP plumbing: connections, `db.query` results, status codes beyond the outcomes modelled, and error logging are not modelled. A transaction is an all-or-nothing step. A failing insert is chosen by a parameter (`failAt`), since the database's errors are not visible.
- The single-item and single-order GET routes and the menu DELETE route only read or delete rows by id and are not modelled.
- BackendOrders.OrderTables.CreateOrder: a request without an `items` array (which throws a TypeError before the transaction writes anything) is not modelled; requests carry a list of lines.
- Behaviour the application does not implement is not modelled as if it existed: required-modifier enforcement, order status transition checks, creating kitchen tickets from submitted orders, split payments, change due and rounding (the round-off is always 0).
- The billing screen's payment-method buttons and print button only set a display state or show a toast.
- Record fields that no modelled operation reads or writes are left out of the datatypes: the order's `tokenNumber`, `discountReason`, `customerName`, `customerPhone`, `notes` and `completedAt`; the kitchen ticket's `tokenNumber` and `startedAt`; the notification's `orderNumber`, `tableName` and `tokenNumber`. The source only carries them along or displays them.
- BackendOrders.AsRequests: the waiter screen's send handler only appends the order to the local store (src/pages/WaiterDashboard.tsx:98) and never calls the server, so how a client order would become the server's request body is an assumed wire format; BackendOrders.ClientSubtotalAddsModifiers holds under that assumption only.
- BillingPage.DiscountBounds: the discount input's `min` and `max` are hints only (`Number(e.target.value)` accepts any number), so the bounds are proved for discounts from 0 to 100 and nothing is claimed for others.
- Route matching models React Router's case-insensitive matching (ASCII letters) and optional trailing slashes; percent-decoding of the path and repeated inner slashes are not modelled.
- Mock tables, users, menu and stock are constants. Only the facts the lemmas name are proved about them; the page layouts that list them are not modelled.

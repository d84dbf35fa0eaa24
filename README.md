# COEx pharmacy marketplace: a Dafny model of its domain core

COEx connects pharmacies with pharmaceutical distributors. This project models three parts of it and proves properties of the model:

- **The store.** The backend keeps an in-memory store of six tables: users, products, orders, payments, deliveries and notifications. Each table has its own id counter.
- **The REST handlers.** They apply the business rules on top of the store and sit behind a token check and role gates. They cover pharmacies placing orders and payments, distributors accepting orders and creating deliveries, pharmacies confirming deliveries, and every user's notifications.
- **The two carts.** The static marketplace page and the React marketplace screen each keep their own shopping cart.

Modules, in dependency order:

- **Support modules.**
  - `Wrappers`: `Option`, `Result` and HTTP error answers.
  - `Seqs`: `findIndex`, `filter`, `map` and `reduce`, a map that stops at the first failure, plus the id discipline of the tables.
  - `Text`: the regular-expression `\s` class, `toLowerCase`, `includes`, and number printing.
- **Records and seed data.**
  - `Entities`: the records and the spread-with-defaults that creates them.
  - `Seed`: the demonstration data.
- **`MemoryDb`.** The store is the class `MemoryDatabase`, whose fields are the tables and counters. Its invariant: ids in each table are unique, increasing and below the counter, and usernames are unique.
- **`Roles` and `Access`.** `Roles` holds the role gates; `Access` holds token verification and the role-based visibility rules.
- **One module per route file:** `OrderRoutes`, `DeliveryRoutes`, `PaymentRoutes`, `ProductRoutes`, `AuthRoutes` and `NotificationRoutes`.
- **`NotificationService`.** The push-notification helper.
- **`Marketplace`.** The static page's cart, as a class whose methods change the stored cart.
- **`PharmacyMarketplace`.** The React screen's cart and product search, as pure functions.

How the handlers are modelled:

- **Checks and answers.** A handler's checks are a pure `Check…` function giving each error answer in the source's order. The handler itself is a method over the store. It answers exactly what the check answers, leaves the store unchanged on every error, and states the new contents of every table it writes.
- **Time.** Timestamps are integers in milliseconds, and the current time is a parameter `now`.
- **Money.** Amounts are integer fils, thousandths of a dinar.

Several handlers read `memoryDb.deliveries`, `memoryDb.payments` or `memoryDb.products` directly:

- `backend/routes/delivery.js:118`, `:120`, `:154` and `:231`;
- `backend/routes/payments.js:105`;
- `backend/routes/products.js:146`.

The store module exports only bound methods (`backend/models/memoryDb.js:711-752`), so as written these reads throw:

- the delivery list and lookup and the product update answer 500;
- the distributor's payment list answers 500;
- the delivery confirmation throws inside the upload callback and never answers.

The model performs the intended lookup on the store's own table instead. Each affected module says so in its header comment.

## Model

| member | source | states |
|---|---|---|
| Entities.NewUser | backend/models/memoryDb.js:45-49 | the new user takes the counter's id; the caller's `createdAt` wins over the current time |
| Entities.NewProduct | backend/models/memoryDb.js:95-99 | the new product takes the counter's id, is created now, has no `updatedAt`, and carries every field of the caller's data |
| Entities.NewOrder | backend/models/memoryDb.js:114-119 | the counter's id, no `updatedAt`, status `pending` unless the caller gives one, `createdAt` the caller's or now |
| Entities.NewPayment | backend/models/memoryDb.js:152-157 | the counter's id, status `pending` unless given, no `updatedAt` |
| Entities.NewDelivery | backend/models/memoryDb.js:186-191 | the counter's id, status `scheduled` unless given, no `updatedAt` |
| Entities.NewNotification | backend/models/memoryDb.js:226-231 | the counter's id, the recipient, unread unless the caller says otherwise, `createdAt` the caller's or now |
| MemoryDb.MemoryDatabase.constructor | backend/models/memoryDb.js:7-28 | empty tables and counters at 1, then the seed. Afterwards: 7 users, 12 products, 5 orders, 3 payments, 3 deliveries and 4 notifications; the next ids are 8, 13, 6, 4, 4 and 5; the invariant holds |
| MemoryDb.MemoryDatabase.SeedDatabase | backend/models/memoryDb.js:283-704 | seeds every table through its create path; table sizes, counters and the invariant as above |
| MemoryDb.MemoryDatabase.SeedTrade | backend/models/memoryDb.js:283-570 | from empty tables, the users, the catalogue and the orders are seeded: 7 users, 12 products and 5 orders, the counters at 8, 13 and 6, every table invariant kept |
| MemoryDb.MemoryDatabase.SeedSettlement | backend/models/memoryDb.js:573-703 | from empty tables, 3 payments, 3 deliveries and 4 notifications are seeded, the counters at 4, 4 and 5, every table invariant kept |
| MemoryDb.MemoryDatabase.SeedUsers | backend/models/memoryDb.js:360-369 | the seven users are pushed with consecutive ids and keep usernames unique |
| MemoryDb.MemoryDatabase.SeedProducts | backend/models/memoryDb.js:371-496 | the 12 catalogue products go through the create path: 12 products with ids 1 to 12, the counter at 13, the table invariant kept |
| MemoryDb.MemoryDatabase.SeedOrders | backend/models/memoryDb.js:498-570 | the 5 demo orders go through the create path: 5 orders, the counter at 6, the table invariant kept |
| MemoryDb.MemoryDatabase.SeedPayments | backend/models/memoryDb.js:572-614 | the 3 demo payments go through the create path: 3 payments, the counter at 4, the table invariant kept |
| MemoryDb.MemoryDatabase.SeedDeliveries | backend/models/memoryDb.js:616-664 | the 3 demo deliveries go through the create path: 3 deliveries, the counter at 4, the table invariant kept |
| MemoryDb.MemoryDatabase.SeedNotifications | backend/models/memoryDb.js:666-703 | the 4 demo notifications go through the create path and none suppresses another: 4 notifications, the counter at 5, the table invariant kept |
| MemoryDb.MemoryDatabase.PushUser | backend/models/memoryDb.js:362-368 | appends exactly one user with the counter's id and bumps the counter |
| MemoryDb.MemoryDatabase.CreateUser | backend/models/memoryDb.js:31-61 | refuses, changing nothing, when username, password, email or role is missing or the username is taken. Otherwise it appends one user with the next id and returns it without its password |
| MemoryDb.MemoryDatabase.GetUserById | backend/models/memoryDb.js:63-70 | null exactly when no user has the id; otherwise that user without a password |
| MemoryDb.MemoryDatabase.GetUserByUsername | backend/models/memoryDb.js:72-74 | the raw record (with its password) of a user of that name; none exactly when no user has it |
| MemoryDb.MemoryDatabase.UpdateUser | backend/models/memoryDb.js:76-84 | null and no change for an unknown id; otherwise only that user changes, to the record with the patch's keys applied, returned without its password |
| MemoryDb.MemoryDatabase.GetUsersByRole | backend/models/memoryDb.js:87-91 | exactly the users of the role, each without a password |
| MemoryDb.MemoryDatabase.CreateProduct | backend/models/memoryDb.js:94-102 | appends one product with the next id and bumps the counter |
| MemoryDb.MemoryDatabase.GetProductById | backend/models/memoryDb.js:108-110 | the product with the id, none exactly when there is none |
| MemoryDb.MemoryDatabase.CreateOrder | backend/models/memoryDb.js:113-122 | appends one order with the next id and bumps the counter |
| MemoryDb.MemoryDatabase.GetOrderById | backend/models/memoryDb.js:128-130 | the order with the id, none exactly when there is none |
| MemoryDb.MemoryDatabase.GetOrdersByPharmacy | backend/models/memoryDb.js:132-134 | exactly the pharmacy's orders |
| MemoryDb.MemoryDatabase.GetOrdersByDistributor | backend/models/memoryDb.js:136-138 | exactly the distributor's orders |
| MemoryDb.MemoryDatabase.UpdateOrderStatus | backend/models/memoryDb.js:140-148 | null and no change for an unknown id; otherwise only that order changes, to the new status with `updatedAt` now |
| MemoryDb.MemoryDatabase.CreatePayment | backend/models/memoryDb.js:151-160 | appends one payment with the next id and bumps the counter |
| MemoryDb.MemoryDatabase.GetPaymentById | backend/models/memoryDb.js:166-168 | the payment with the id, none exactly when there is none |
| MemoryDb.MemoryDatabase.GetPaymentsByPharmacy | backend/models/memoryDb.js:170-172 | exactly the pharmacy's payments |
| MemoryDb.MemoryDatabase.UpdatePaymentStatus | backend/models/memoryDb.js:174-182 | null and no change for an unknown id; otherwise only that payment changes, to the new status with `updatedAt` now |
| MemoryDb.MemoryDatabase.CreateDelivery | backend/models/memoryDb.js:185-194 | appends one delivery with the next id and bumps the counter |
| MemoryDb.MemoryDatabase.UpdateDeliveryStatus | backend/models/memoryDb.js:196-208 | null and no change for an unknown id; otherwise only that delivery changes: new status, `updatedAt` now, confirmation keys merged over the old ones |
| MemoryDb.MemoryDatabase.CreateNotification | backend/models/memoryDb.js:211-234 | null and nothing stored exactly when the same user already has a notification with the same title, message and type created less than five minutes ago; otherwise one notification appended with the next id |
| MemoryDb.RepeatWithinWindowSuppressed | backend/models/memoryDb.js:213-223 | after a notification is stored, sending it again within five minutes is a duplicate |
| MemoryDb.AtMostOnceWithinWindow | backend/models/memoryDb.js:211-234 | two identical sends within five minutes store at most one notification |
| MemoryDb.MemoryDatabase.GetNotificationsByUserId | backend/models/memoryDb.js:236-240 | newest first, and a rearrangement of exactly the user's notifications |
| MemoryDb.SortNewest | backend/models/memoryDb.js:239 | the sort puts newest first and keeps every element (a permutation) |
| MemoryDb.MemoryDatabase.MarkNotificationAsRead | backend/models/memoryDb.js:242-252 | null and no change unless the notification exists and belongs to the user; otherwise only it changes, to read with `readAt` now |
| MemoryDb.MemoryDatabase.MarkAllNotificationsAsRead | backend/models/memoryDb.js:254-261 | each of the user's notifications becomes read with `readAt` now; every other notification is unchanged |
| MemoryDb.MemoryDatabase.ClearAllNotifications | backend/models/memoryDb.js:263-267 | removes exactly the user's notifications and keeps every other one |
| MemoryDb.MemoryDatabase.IsExceedingCreditLimit | backend/models/memoryDb.js:270-280 | true for an unknown user or a non-pharmacy; otherwise true exactly when the pharmacy's pending payments add up to more than its credit limit (0 when none is set) |
| MemoryDb.PendingTotalAppend | backend/models/memoryDb.js:274-277 | a new payment raises a pharmacy's pending total by its own pending amount only |
| MemoryDb.PendingTotalUpdate | backend/models/memoryDb.js:274-277 | replacing one payment changes the pending total by the difference of the two pending amounts |
| Roles.HasRole | backend/middleware/roles.js:7-25 | 401 without a user, 403 when the role is not listed, otherwise the user passes |
| Roles.IsPharmacy | backend/middleware/roles.js:28-30 | passes exactly pharmacies and admins |
| Roles.IsDistributor | backend/middleware/roles.js:32-34 | passes exactly distributors and admins |
| Roles.IsAdmin | backend/middleware/roles.js:36-38 | passes exactly admins |
| Roles.AdminPassesAll | backend/middleware/roles.js:28-38 | an admin passes all three gates |
| Roles.PharmacyLimited | backend/middleware/roles.js:32-38 | a pharmacy is refused with 403 by the distributor and admin gates |
| Access.VerifyToken | backend/middleware/auth.js:9-40 | 401 for a missing or invalid token and for a token whose user no longer exists; otherwise the token's id and role |
| Access.Authorize | backend/middleware/roles.js:7-25 | passes exactly the existing users whose token carries one of the roles |
| OrderRoutes.PriceItem | backend/routes/orders.js:48-73 | an item without product id or quantity fails as such, one naming an unknown product fails with that id (both answered 400 by the handler); otherwise the line carries the stored name and price and total = price × quantity |
| OrderRoutes.PriceItemsOk | backend/routes/orders.js:46-74 | pricing succeeds exactly when every item prices |
| OrderRoutes.PriceItemsLines | backend/routes/orders.js:46-74 | a priced request has one line per item, line `i` being the line of item `i` |
| OrderRoutes.PriceItemsPrefixErr | backend/routes/orders.js:46-74 | the first failing item decides the error, whatever follows it |
| OrderRoutes.ProcessItems | backend/routes/orders.js:43-74 | the loop produces exactly the priced lines, or the first error, and a total equal to the sum of the line totals |
| OrderRoutes.CheckOrder | backend/routes/orders.js:13-74 | in order: token, pharmacy gate, 400 without items, 400 for an unknown or non-distributor id, 400 over the credit limit, then the item errors |
| OrderRoutes.ValidateOrder | backend/routes/orders.js:13-74 | the imperative checks answer exactly what the check function answers |
| OrderRoutes.PostOrder | backend/routes/orders.js:76-107 | on success exactly one order is appended, for the caller, priced from the catalogue, and the distributor gets one new-order notification (unless it is a duplicate); nothing changes on any error |
| OrderRoutes.StoreOrder | backend/routes/orders.js:76-101 | one order is appended with the next id and the distributor gets one new-order notification (unless it is a duplicate) |
| OrderRoutes.ListOrders | backend/routes/orders.js:123-146 | exactly the orders the caller's role lists (own for a pharmacy or distributor, all for an admin), narrowed to the requested status |
| OrderRoutes.OrdersListedFor | backend/routes/orders.js:125-134 | a listed order is a stored order the role lists, and every stored order the role lists is listed |
| OrderRoutes.ShowOrder | backend/routes/orders.js:162-190 | 404 for an unknown id, 403 for another pharmacy's or distributor's order; success exactly when the token verifies, the order exists and the caller may view it, and then that order |
| OrderRoutes.ListedOrdersViewable | backend/routes/orders.js:123-190 | every order the list shows opens by id for the same caller |
| OrderRoutes.CheckOrderStatus | backend/routes/orders.js:207-235 | distributor gate, 400 for a status outside the seven, 404, 403 unless the order is addressed to the caller |
| OrderRoutes.PutOrderStatus | backend/routes/orders.js:236-255 | only that order's status and `updatedAt` change, and the pharmacy is notified; nothing changes on any error |
| DeliveryRoutes.CheckDelivery | backend/routes/delivery.js:13-56 | in order: 400 without order id or type, 400 for a type outside pickup/scheduled/third-party, 404, 403 unless the caller is the order's distributor, 400 unless the order is accepted, processing or shipped |
| DeliveryRoutes.PostDelivery | backend/routes/delivery.js:58-95 | appends one delivery, marks the order shipped when it is not, notifies the pharmacy; nothing changes on any error |
| DeliveryRoutes.StoreDelivery | backend/routes/delivery.js:59-92 | afterwards the order is shipped and only the delivery, order and notification tables changed |
| DeliveryRoutes.ListDeliveries | backend/routes/delivery.js:112-135 | exactly the deliveries the caller's role lists, narrowed to the requested status |
| DeliveryRoutes.ListedFor | backend/routes/delivery.js:117-124 | a pharmacy's or distributor's own deliveries, all for an admin, none for any other role |
| DeliveryRoutes.ShowDelivery | backend/routes/delivery.js:151-180 | 404 for an unknown id, 403 for another pharmacy's or distributor's delivery, otherwise that delivery |
| DeliveryRoutes.CheckConfirm | backend/routes/delivery.js:197-246 | in order: token, pharmacy gate, 400 on an upload error, 400 without a valid confirmation type, 400 for OTP without a code, 404, 403 unless the delivery is the caller's |
| DeliveryRoutes.ConfirmationData | backend/routes/delivery.js:248-254 | the confirmation record holds exactly five keys: the type, the time, the notes (`''` when none), the image path only with a file (otherwise null), and the OTP code or null |
| DeliveryRoutes.ConfirmDelivery | backend/routes/delivery.js:256-280 | the delivery becomes delivered with the confirmation merged in, its order becomes delivered, the distributor is notified; nothing changes on any error |
| DeliveryRoutes.StoreConfirmation | backend/routes/delivery.js:248-275 | only the delivery's index changes, to delivered with the confirmation data merged in; its order, when stored, becomes delivered with updatedAt now; the distributor's notice is stored unless it is a duplicate |
| PaymentRoutes.CheckPayment | backend/routes/payments.js:13-45 | in order: token, pharmacy gate, 400 on an upload error, 400 without amount or distributor, 400 for an unknown or non-distributor id |
| PaymentRoutes.PostPayment | backend/routes/payments.js:47-79 | appends one payment for the caller and notifies the distributor; the caller's pending total rises by the amount and no other pharmacy's changes |
| PaymentRoutes.StorePayment | backend/routes/payments.js:47-73 | the payment is NewPayment with the next id, appended; the distributor's new-payment notice is stored unless it is a duplicate; every pharmacy's pending total moves by exactly that payment's pending amount |
| PaymentRoutes.ListPayments | backend/routes/payments.js:96-120 | exactly the payments the caller's role lists, narrowed to the requested status |
| PaymentRoutes.PaymentsListedFor | backend/routes/payments.js:98-108 | a listed payment is a stored payment the role lists, and every stored payment the role lists is listed |
| PaymentRoutes.ShowPayment | backend/routes/payments.js:136-165 | 404 for an unknown id, 403 for another pharmacy's or distributor's payment, otherwise that payment |
| PaymentRoutes.CheckPaymentStatus | backend/routes/payments.js:181-209 | distributor gate, 400 for a status outside the five, 404, 403 unless the payment is addressed to the caller |
| PaymentRoutes.PutPaymentStatus | backend/routes/payments.js:211-229 | only that payment's status changes; the pharmacy's pending total moves by the old and new pending amounts; the pharmacy is notified |
| PaymentRoutes.StorePaymentStatus | backend/routes/payments.js:211-224 | only the payment's index changes, to the new status with updatedAt now; the pharmacy's status notice is stored unless it is a duplicate; its pending total moves by the old and new pending amounts |
| ProductRoutes.ListProducts | backend/routes/products.js:13-21 | the whole catalogue for any verified caller |
| ProductRoutes.ShowProduct | backend/routes/products.js:37-51 | 404 exactly when no product has the id; otherwise that product |
| ProductRoutes.CheckNewProduct | backend/routes/products.js:67-77 | distributor gate, then 400 without name or price |
| ProductRoutes.PostProduct | backend/routes/products.js:79-94 | appends one product owned by the caller, stock 0 when not given |
| ProductRoutes.CollectUpdates | backend/routes/products.js:132-140 | the body's allowed keys and no others, with the body's values |
| ProductRoutes.ApplyFields | backend/routes/products.js:132-152 | id, owner, creation and update times are never changed; each of the seven allowed keys the update lacks keeps its stored value, and each it holds (as a value of its kind) stores the update's value |
| ProductRoutes.ApplyNothing | backend/routes/products.js:132-152 | a body without allowed keys changes nothing |
| ProductRoutes.ApplyAllowedOnly | backend/routes/products.js:132-152 | keys outside the allowed list have no effect |
| ProductRoutes.CheckProductUpdate | backend/routes/products.js:110-129 | distributor gate, 404, 403 unless the caller owns the product or is an admin |
| ProductRoutes.PutProduct | backend/routes/products.js:146-160 | only that product changes, to the product with the allowed keys applied and `updatedAt` now |
| AuthRoutes.EmailShapes | backend/routes/auth.js:48-56 | the email pattern accepts `a@b.c` and refuses `a@b` and `@b.c` |
| AuthRoutes.EmailShapedIsPlain | backend/routes/auth.js:48 | the pattern accepts exactly the addresses without white space that hold exactly one `@`, with text before it, and a `.` after it that is neither right after the `@` nor last |
| AuthRoutes.CheckRegister | backend/routes/auth.js:14-65 | in order: 400 without email or password, 400 for a registered email, 400 for an unknown role, 400 for a badly formed email |
| AuthRoutes.Register | backend/routes/auth.js:66-121 | on success exactly one user is appended (the email as username, a pharmacy's credit limit 1000 JD) and, when the password compares equal to its own hash, logging in with the email and that password returns the new user; nothing changes on any error |
| AuthRoutes.Login | backend/routes/auth.js:142-190 | 401 for an unknown user or a wrong password; otherwise the public view of the first stored user with that name (no earlier user has it), without its password |
| AuthRoutes.Me | backend/routes/auth.js:206-219 | the caller's own record without its password |
| AuthRoutes.ListUsers | backend/routes/auth.js:235-248 | admins only: every stored user, split by role, each without a password; each list holds exactly the public views of stored users of its role |
| AuthRoutes.CheckCreditLimit | backend/routes/auth.js:264-282 | admin gate, 404 for an unknown user, 400 for a user that is not a pharmacy |
| AuthRoutes.PutCreditLimit | backend/routes/auth.js:284-290 | only the user's credit limit changes, and the credit check then compares pending payments with the new limit |
| NotificationRoutes.Unread | backend/routes/notifications.js:15 | at most the number of notifications, and 0 exactly when all are read |
| NotificationRoutes.UnreadPermutation | backend/routes/notifications.js:14-15 | the unread count does not depend on the order of the notifications |
| NotificationRoutes.GetInbox | backend/routes/notifications.js:12-21 | the caller's notifications newest first, and their unread count |
| NotificationRoutes.MarkRead | backend/routes/notifications.js:37-51 | 404 unless the caller owns the notification; otherwise only it becomes read |
| NotificationRoutes.ReadAll | backend/routes/notifications.js:67-74 | afterwards none of the caller's notifications is unread; other users' notifications are unchanged |
| NotificationRoutes.Clear | backend/routes/notifications.js:90-97 | afterwards the caller has no notifications; the store is the old list with exactly the caller's notifications filtered out, order kept |
| NotificationService.StoredDraft | backend/utils/notifications.js:37-44 | the stored notification carries the recipient, title, message and type, with metadata defaulting to `{}` |
| NotificationService.SendPushNotification | backend/utils/notifications.js:20-54 | false and nothing stored without a notification, without a user id, or for an unknown user; otherwise true and one `createNotification` |
| NotificationService.SendOrderStatusUpdate | backend/utils/notifications.js:56-78 | the order's pharmacy gets the order_update notice naming the order and its status |
| NotificationService.SendPaymentStatusUpdate | backend/utils/notifications.js:80-102 | the payment's pharmacy gets the payment_update notice naming the amount and status |
| NotificationService.SendNewOrderNotification | backend/utils/notifications.js:104-125 | the order's distributor gets the new_order notice naming the order and the pharmacy |
| NotificationService.SendPaymentDueReminder | backend/utils/notifications.js:127-147 | the payment's pharmacy gets the payment_reminder notice |
| NotificationService.ReminderStoredOnce | backend/utils/notifications.js:127-147 | a due reminder sent twice within five minutes is stored at most once |
| Marketplace.GenerateProductId | frontend/pharmacy/marketplace.js:337-339 | the id has no whitespace and no capital letter, is no longer than the name, and apart from whitespace and dashes holds the lower-cased name's characters in order |
| Marketplace.Hyphenate | frontend/pharmacy/marketplace.js:338 | no whitespace remains, nothing gets longer, and a string without capitals gives a slug without capitals |
| Marketplace.HyphenateRun | frontend/pharmacy/marketplace.js:338 | a maximal whitespace run between two pieces of text (or at either end) becomes exactly one `-`, each side hyphenated on its own; with `HyphenateSpaceless` this fixes the slug of every string |
| Marketplace.HyphenateSpaceless | frontend/pharmacy/marketplace.js:338 | a string without whitespace is its own slug |
| Marketplace.HyphenateKeepsText | frontend/pharmacy/marketplace.js:338 | apart from whitespace and dashes, the id holds the name's characters in their order |
| Marketplace.RunCollapses | frontend/pharmacy/marketplace.js:338 | anywhere in a name, a run of two whitespace characters gives the same slug as one |
| Marketplace.GenerateProductIdIdempotent | frontend/pharmacy/marketplace.js:337-339 | an id taken as a name gives the same id back |
| Marketplace.HyphenateOneSpace | frontend/pharmacy/marketplace.js:338 | one space between two text characters becomes one `-` |
| Marketplace.HyphenateTwoSpaces | frontend/pharmacy/marketplace.js:338 | two spaces between two text characters also become one `-` |
| Marketplace.SpacingAndCaseShareId | frontend/pharmacy/marketplace.js:337-339 | `A  b` and `a b` both become `a-b` |
| Marketplace.Position | frontend/pharmacy/marketplace.js:345 | the first index with the id, or -1 exactly when no entry has it |
| Marketplace.FindItem | frontend/pharmacy/marketplace.js:345 | the search loop finds exactly that first index |
| Marketplace.AddedTo | frontend/pharmacy/marketplace.js:345-351 | with the id present the cart keeps its length; without it the product is appended; entries with other ids are unchanged |
| Marketplace.AddMerges | frontend/pharmacy/marketplace.js:347-348 | the first entry with the id gains the added quantity |
| Marketplace.AddKeepsUnique | frontend/pharmacy/marketplace.js:345-351 | a cart with unique ids keeps them unique |
| Marketplace.AddCount | frontend/pharmacy/marketplace.js:345-351 | the cart count rises by exactly the added quantity |
| Marketplace.Cart.AddToCart | frontend/pharmacy/marketplace.js:342-353 | the stored cart becomes the merged-or-appended cart; count and uniqueness as above |
| Marketplace.RemovedFrom | frontend/pharmacy/marketplace.js:394 | no entry with the id remains, every other entry remains, and nothing new appears |
| Marketplace.RemovedFromAppend | frontend/pharmacy/marketplace.js:394 | removal distributes over concatenation, so the kept entries stay in cart order |
| Marketplace.RemovedFromSingle | frontend/pharmacy/marketplace.js:394 | a single entry is dropped exactly when it carries the id |
| Marketplace.RemoveCount | frontend/pharmacy/marketplace.js:394 | the count falls by exactly the quantity held under the id |
| Marketplace.Cart.RemoveFromCart | frontend/pharmacy/marketplace.js:392-398 | the stored cart becomes the filtered cart |
| Marketplace.AtLeastOne | frontend/pharmacy/marketplace.js:406-409 | a quantity below 1 is stored as 1; any other is kept |
| Marketplace.UpdatedQuantity | frontend/pharmacy/marketplace.js:403-410 | no change when the id is absent; the length and every other entry are kept |
| Marketplace.UpdateSets | frontend/pharmacy/marketplace.js:405-409 | the first entry with the id holds the clamped quantity |
| Marketplace.UpdateKeepsUnique | frontend/pharmacy/marketplace.js:403-410 | a cart with unique ids keeps them unique |
| Marketplace.UpdateCount | frontend/pharmacy/marketplace.js:403-410 | the count changes by the clamped quantity minus the old one, or not at all when the id is absent |
| Marketplace.Cart.UpdateCartItemQuantity | frontend/pharmacy/marketplace.js:401-414 | the stored cart becomes the updated cart |
| Marketplace.OperationsKeepPositive | frontend/pharmacy/marketplace.js:345-410 | if every quantity is at least 1, it stays so after an update or a removal, and after adding a quantity of at least 1 |
| Marketplace.CartBadge | frontend/pharmacy/marketplace.js:427-434 | the badge shows the sum of the quantities |
| Marketplace.CheckoutDisabledIffEmpty | frontend/pharmacy/marketplace.js:427-434 | with every quantity at least 1, checkout is disabled exactly when the cart is empty |
| Marketplace.StepDown | frontend/pharmacy/marketplace.js:287-292 | a value above 1 goes down by one; any other value stays |
| Marketplace.StepsDownStayPositive | frontend/pharmacy/marketplace.js:287-292 | however often minus is pressed, a value of at least 1 stays at least 1 (it reaches 1 and stops) |
| Marketplace.StepUp | frontend/pharmacy/marketplace.js:294-297 | the value goes up by one |
| Marketplace.NormalizeInput | frontend/pharmacy/marketplace.js:299-303 | the field always holds at least 1; a number of at least 1 is kept |
| Marketplace.Cart.MinusClicked | frontend/pharmacy/marketplace.js:502-514 | only a shown quantity above 1 is lowered, so the button keeps every quantity at least 1 |
| Marketplace.Cart.PlusClicked | frontend/pharmacy/marketplace.js:516-526 | the entry is set to one more than shown |
| PharmacyMarketplace.HandleAddToCart | frontend/src/screens/pharmacy/PharmacyMarketplace.jsx:86-97 | with the id present, every entry with it gains the quantity and nothing else changes; otherwise the product is appended with the quantity (1 by default) |
| PharmacyMarketplace.AddTotal | frontend/src/screens/pharmacy/PharmacyMarketplace.jsx:86-97 | the total rises by the quantity times the prices of the matching entries, or times the product's price when it is appended |
| PharmacyMarketplace.AddSameProductTotal | frontend/src/screens/pharmacy/PharmacyMarketplace.jsx:86-97 | with unique ids and a consistent price, adding q of a product raises the total by q times its price |
| PharmacyMarketplace.AddKeepsUnique | frontend/src/screens/pharmacy/PharmacyMarketplace.jsx:86-97 | a cart with unique ids keeps them unique |
| PharmacyMarketplace.HandleRemoveFromCart | frontend/src/screens/pharmacy/PharmacyMarketplace.jsx:108-110 | no entry with the id remains, every other entry remains, and nothing new appears |
| PharmacyMarketplace.RemoveTotal | frontend/src/screens/pharmacy/PharmacyMarketplace.jsx:108-110 | the total falls by exactly the line totals of the removed entries |
| PharmacyMarketplace.HandleUpdateQuantity | frontend/src/screens/pharmacy/PharmacyMarketplace.jsx:112-119 | a quantity below 1 leaves the cart unchanged; otherwise every entry with the id holds the quantity and the others are kept |
| PharmacyMarketplace.OperationsKeepPositive | frontend/src/screens/pharmacy/PharmacyMarketplace.jsx:86-119 | if every quantity is at least 1, it stays so after any update or removal, and after adding a quantity of at least 1 |
| PharmacyMarketplace.GetTotalPrice | frontend/src/screens/pharmacy/PharmacyMarketplace.jsx:121-123 | the left-to-right reduce equals the sum of price × quantity over the cart |
| PharmacyMarketplace.FilteredProducts | frontend/src/screens/pharmacy/PharmacyMarketplace.jsx:125-128 | keeps exactly the products whose lower-cased name or manufacturer contains the lower-cased query |
| PharmacyMarketplace.FilteredProductsInOrder | frontend/src/screens/pharmacy/PharmacyMarketplace.jsx:125-128 | the search keeps catalogue order: the result for `a + b` is the result for `a` followed by that for `b`, and a single product is kept exactly when it matches |
| Seqs.FilterAppend | frontend/src/screens/pharmacy/PharmacyMarketplace.jsx:125-128 | `filter` works piece by piece: the kept elements of `a + b` are those of `a`, in order, then those of `b` |
| PharmacyMarketplace.EmptyQueryKeepsAll | frontend/src/screens/pharmacy/PharmacyMarketplace.jsx:125-128 | an empty query keeps the whole catalogue |
| PharmacyMarketplace.QueryCaseIgnored | frontend/src/screens/pharmacy/PharmacyMarketplace.jsx:125-128 | the letter case of the query does not change the result |
| PharmacyMarketplace.NameHitFound | frontend/src/screens/pharmacy/PharmacyMarketplace.jsx:126 | a product whose lower-cased name starts with the lower-cased query is found |

## Left out

- **JSON web tokens.** Signing and verifying them is not modelled. What verification yields is an input (`Access.Token`). Login issues no token.
- **bcrypt.** Hashing and comparing are function parameters of `AuthRoutes.Register` and `AuthRoutes.Login`. A failure of the hash itself, answered 500 "Error processing password", is not modelled.
- **File uploads.** Multer uploads are an input (`Access.Upload`): a failure, no file, or the stored path. Disk storage is not modelled.
- **Extra fields of error answers.** The model keeps the status and message. It drops the `success` flag and the `error`/`details` fields of 500 answers.
- **500 answers from exceptions.** The catch-all 500 answers for unexpected exceptions are not modelled, and neither are console logs.
- **Whole-store objects.** A handler that reads `memoryDb.deliveries`, `memoryDb.payments` or `memoryDb.products` throws as written; the model performs the intended lookup instead. This covers `DeliveryRoutes.ListDeliveries`, `DeliveryRoutes.ShowDelivery`, `DeliveryRoutes.ConfirmDelivery`, `PaymentRoutes.ListPayments` and `ProductRoutes.PutProduct`.
- **Caller-supplied ids.** The store's create methods write the counter id before the caller's data, so a caller-supplied `id` key would win. No caller passes one, so the model always uses the counter. The source also passes a `timestamps` object to `createOrder` (`backend/routes/orders.js:86-89`), `createDelivery` (`backend/routes/delivery.js:69-72`) and `createPayment` (`backend/routes/payments.js:58-61`), and the store keeps it on the record. The model's order, delivery and payment records leave that object out.
- **Money and number parsing.** Money is integer fils rather than JavaScript doubles, so there is no rounding, no `toFixed` and no `parseFloat`. `parseInt` on ids and quantities is reduced to integer arguments. `NaN` is modelled only where the source tests for it (the quantity field's change handler).
- **Case folding.** `toLowerCase` is modelled on ASCII letters only.
- **Unreachable checks.** The registration's `password.length < 1` check cannot fire, and neither can the 404 of `GET /api/auth/me`. Both are noted in `AuthRoutes`.
- ProductRoutes.ApplyFields: the source parses an allowed `price` with `parseFloat` and `stockQuantity` with `parseInt` (`backend/routes/products.js:137-141`). So a text value such as `"12.5"` is stored as the number it reads, and unreadable text as `NaN`. The model applies only values that are already numbers and keeps the stored price or stock otherwise. It likewise keeps the stored text when a text field is sent as a number, which the source would store as that number.
- MemoryDb.MemoryDatabase.GetNotificationsByUserId: states newest-first order and the exact contents, not which of several equal-time notifications comes first.
- **Aliasing.** The store returns live references to its records, so a caller that changed a returned object would change the store. No handler does, and the model returns values.
- **UI plumbing.**
  - React state, rendering, toasts, modals, the DOM, `localStorage` JSON round trips and the timers of the confirmation pop-up are not modelled.
  - The static page's `addToCart` accepts any quantity its caller parsed.
  - `updateCartItemQuantity` does not refresh the count badge; the model has no badge state.
- **The push-service flag.** `NotificationService`'s `fcmEnabled` flag is never read, so it is not modelled. The push itself is a log line and is not modelled either.

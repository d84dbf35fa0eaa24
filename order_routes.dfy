/** The order routes of `backend/routes/orders.js`: placing an order, listing and showing
    orders by role, and the distributor's status update. */
module OrderRoutes {
  import opened Wrappers
  import opened Seqs
  import opened Text
  import opened Entities
  import opened Roles
  import opened MemoryDb
  import opened Access

  // ----- Error messages --------------------------------------------------------------------

  const ItemFieldsMissing := "Each item must have productId and quantity"
  const NoItems := "Order must contain at least one item"
  const InvalidDistributor := "Invalid distributor"
  const CreditExceeded := "Cannot place order due to exceeded credit limit"
  const OrderNotFound := "Order not found"
  const OrderHidden := "Not authorized to view this order"
  const InvalidStatus := "Invalid status"
  const NotOrderParty := "Not authorized to update this order"

  /** One requested line; 0 stands for a missing or falsy `productId` or `quantity`. */
  datatype ItemRequest = ItemRequest(productId: int, quantity: int)

  /** The body of `POST /api/orders`; `items` is `None` when it is missing or not an array,
      and a `distributorId` that names no user is any id no user has (0, say). */
  datatype OrderRequest = OrderRequest(items: Option<seq<ItemRequest>>, distributorId: int,
                                       notes: Option<string>)

  /** Why an item of a request cannot be priced. */
  datatype ItemError = MissingItemFields | UnknownProduct(productId: int)

  /** The message of the 400 answer to a bad item. */
  function ItemMessage(e: ItemError): string {
    match e
    case MissingItemFields => ItemFieldsMissing
    case UnknownProduct(id) => "Product with ID " + IntToString(id) + " not found"
  }

  const OrderStatuses: seq<string> :=
    ["pending", "accepted", "rejected", "processing", "shipped", "delivered", "cancelled"]

  // ----- Pricing ---------------------------------------------------------------------------

  /** The stored line for one requested item, or the error that aborts the request. A line
      uses the name and the current price of the product. */
  function PriceItem(products: seq<Product>, it: ItemRequest): (r: Result<OrderLine, ItemError>)
    ensures it.productId == 0 || it.quantity == 0 ==> r == Err(MissingItemFields)
    ensures it.productId != 0 && it.quantity != 0
            && (forall k :: 0 <= k < |products| ==> products[k].id != it.productId)
            ==> r == Err(UnknownProduct(it.productId))
    ensures r.Ok? <==> it.productId != 0 && it.quantity != 0
                       && exists k :: 0 <= k < |products| && products[k].id == it.productId
    ensures r.Ok? ==> && r.value.productId == it.productId && r.value.quantity == it.quantity
                      && r.value.total == r.value.price * r.value.quantity
                      && exists k :: && 0 <= k < |products| && products[k].id == it.productId
                                     && r.value.name == products[k].name
                                     && r.value.price == products[k].price
  {
    if it.productId == 0 || it.quantity == 0 then Err(MissingItemFields)
    else
      var k := IndexOf(products, ProductKey, it.productId);
      if k < 0 then Err(UnknownProduct(it.productId))
      else Ok(OrderLine(it.productId, products[k].name, products[k].price, it.quantity,
                        products[k].price * it.quantity))
  }

  /** The lines of a whole request, item by item; the first bad item decides the error. */
  function PriceItems(products: seq<Product>, items: seq<ItemRequest>)
    : Result<seq<OrderLine>, ItemError>
  {
    MapResult(items, (it: ItemRequest) => PriceItem(products, it))
  }

  /** The sum of the line totals. */
  function LinesTotal(lines: seq<OrderLine>): int {
    if |lines| == 0 then 0 else LinesTotal(lines[..|lines| - 1]) + lines[|lines| - 1].total
  }

  /** A request is priced iff every item is. */
  lemma PriceItemsOk(products: seq<Product>, items: seq<ItemRequest>)
    ensures PriceItems(products, items).Ok?
            <==> forall i :: 0 <= i < |items| ==> PriceItem(products, items[i]).Ok?
  {
    MapResultOk(items, (it: ItemRequest) => PriceItem(products, it));
  }

  /** A priced request has one line per item, and line `i` is the line of item `i`. */
  lemma PriceItemsLines(products: seq<Product>, items: seq<ItemRequest>)
    ensures PriceItems(products, items).Ok? ==>
              && |PriceItems(products, items).value| == |items|
              && forall i :: 0 <= i < |items| ==>
                   && PriceItem(products, items[i]).Ok?
                   && PriceItems(products, items).value[i] == PriceItem(products, items[i]).value
  {
    var f := (it: ItemRequest) => PriceItem(products, it);
    if |items| > 0 && PriceItems(products, items).Ok? {
      MapResultAt(items, f, 0);
      forall i | 0 <= i < |items|
        ensures && PriceItem(products, items[i]).Ok?
                && PriceItems(products, items).value[i] == PriceItem(products, items[i]).value
      {
        MapResultAt(items, f, i);
      }
    }
  }

  /** An error in a prefix of the items is the error of the whole request. */
  lemma PriceItemsPrefixErr(products: seq<Product>, items: seq<ItemRequest>, j: int)
    requires 0 <= j <= |items| && PriceItems(products, items[..j]).Err?
    ensures PriceItems(products, items) == PriceItems(products, items[..j])
  {
    MapResultPrefixErr(items, (it: ItemRequest) => PriceItem(products, it), j);
  }

  /** The `for (const item of items)` loop: prices the items in order, accumulating the
      lines and `totalAmount`, and stops at the first bad item. */
  method ProcessItems(products: seq<Product>, items: seq<ItemRequest>)
    returns (r: Result<seq<OrderLine>, ItemError>, total: int)
    ensures r == PriceItems(products, items)
    ensures r.Ok? ==> total == LinesTotal(r.value)
  {
    var lines: seq<OrderLine> := [];
    total := 0;
    for i := 0 to |items|
      invariant PriceItems(products, items[..i]) == Ok(lines)
      invariant total == LinesTotal(lines)
    {
      var line := PriceItem(products, items[i]);
      assert items[..i + 1][..i] == items[..i];
      if line.Err? {
        PriceItemsPrefixErr(products, items, i + 1);
        return Err(line.error), total;
      }
      assert (lines + [line.value])[..|lines|] == lines;
      lines := lines + [line.value];
      total := total + line.value.total;
    }
    assert items[..|items|] == items;
    r := Ok(lines);
  }

  // ----- POST /api/orders ------------------------------------------------------------------

  /** What the checks of a new order establish: the caller, its business name, the
      distributor and the priced lines. */
  datatype OrderPlan = OrderPlan(caller: Principal, pharmacyName: string, distributor: PublicUser,
                                 lines: seq<OrderLine>)

  /** The checks of `POST /api/orders`, in their order: the token and the pharmacy gate,
      a non-empty item list, a real distributor, the caller's credit, then every item. */
  function CheckOrder(db: MemoryDatabase, token: Token, req: OrderRequest): (r: Response<OrderPlan>)
    requires db.UsersValid()
    reads db
    ensures Authorize(db, token, PharmacyRoles).Err? ==> r == Err(Authorize(db, token, PharmacyRoles).error)
    ensures Authorize(db, token, PharmacyRoles).Ok? && (req.items.None? || |req.items.value| == 0)
            ==> r == Fail(400, NoItems)
    ensures Authorize(db, token, PharmacyRoles).Ok? && req.items.Some? && |req.items.value| > 0
            && (db.GetUserById(req.distributorId).None?
                || db.GetUserById(req.distributorId).value.role != "distributor")
            ==> r == Fail(400, InvalidDistributor)
    ensures Authorize(db, token, PharmacyRoles).Ok? && req.items.Some? && |req.items.value| > 0
            && db.GetUserById(req.distributorId).Some?
            && db.GetUserById(req.distributorId).value.role == "distributor"
            && db.IsExceedingCreditLimit(token.id)
            ==> r == Fail(400, CreditExceeded)
    ensures Authorize(db, token, PharmacyRoles).Ok? && req.items.Some? && |req.items.value| > 0
            && db.GetUserById(req.distributorId).Some?
            && db.GetUserById(req.distributorId).value.role == "distributor"
            && !db.IsExceedingCreditLimit(token.id)
            && PriceItems(db.products, req.items.value).Err?
            ==> r == Fail(400, ItemMessage(PriceItems(db.products, req.items.value).error))
    ensures r.Ok? ==> && Authorize(db, token, PharmacyRoles) == Ok(r.value.caller)
                      && req.items.Some? && |req.items.value| > 0
                      && db.GetUserById(req.distributorId) == Some(r.value.distributor)
                      && r.value.distributor.role == "distributor"
                      && !db.IsExceedingCreditLimit(r.value.caller.id)
                      && PriceItems(db.products, req.items.value) == Ok(r.value.lines)
    // the credit check lets through only callers stored as pharmacies: never an admin
    ensures r.Ok? ==> exists i :: && 0 <= i < |db.users| && db.users[i].id == r.value.caller.id
                                  && db.users[i].role == "pharmacy"
  {
    match Authorize(db, token, PharmacyRoles)
    case Err(e) => Err(e)
    case Ok(p) =>
      if req.items.None? || |req.items.value| == 0 then
        Fail(400, NoItems)
      else
        var d := db.GetUserById(req.distributorId);
        if d.None? || d.value.role != "distributor" then Fail(400, InvalidDistributor)
        else if db.IsExceedingCreditLimit(p.id) then
          Fail(400, CreditExceeded)
        else
          match PriceItems(db.products, req.items.value)
          case Err(e) => Fail(400, ItemMessage(e))
          case Ok(lines) => Ok(OrderPlan(p, db.GetUserById(p.id).value.businessName, d.value, lines))
  }

  /** The data `createOrder` receives for a checked request. */
  function OrderDraftFor(plan: OrderPlan, req: OrderRequest): OrderDraft {
    OrderDraft(None, Some("pending"), plan.caller.id, plan.pharmacyName, req.distributorId,
               plan.distributor.businessName, plan.lines, LinesTotal(plan.lines), req.notes)
  }

  /** The notification that tells the distributor of a new order. */
  function NewOrderNotice(o: Order): NotificationDraft {
    NotificationDraft(None, None, o.distributorId, "New Order Received",
                      "New order #" + IntToString(o.id) + " received from " + o.pharmacyName,
                      "new_order", Some(map["orderId" := Num(o.id)]))
  }

  /** `POST /api/orders`: on any failed check nothing is stored; otherwise one pending order
      is stored with the caller as pharmacy, and the distributor is notified. */
  method PostOrder(db: MemoryDatabase, token: Token, req: OrderRequest, now: int)
    returns (r: Response<Order>)
    requires db.UsersValid() && db.OrdersValid() && db.NotificationsValid()
    modifies db`orders, db`nextOrderId, db`notifications, db`nextNotificationId
    ensures db.OrdersValid() && db.NotificationsValid()
    ensures old(CheckOrder(db, token, req)).Err? ==> r == Err(old(CheckOrder(db, token, req)).error)
    ensures r.Err? ==> unchanged(db)
    ensures r.Ok? <==> old(CheckOrder(db, token, req)).Ok?
    ensures r.Ok? ==>
              && r.value == NewOrder(old(db.nextOrderId), now,
                                     OrderDraftFor(old(CheckOrder(db, token, req)).value, req))
              && db.orders == old(db.orders) + [r.value]
              && db.nextOrderId == old(db.nextOrderId) + 1
              && Notified(old(db.notifications), old(db.nextNotificationId), db.notifications,
                          db.nextNotificationId, NewOrderNotice(r.value), now)
    ensures r.Ok? ==> && r.value.status == "pending" && r.value.pharmacyId == token.id
                      && r.value.distributorId == req.distributorId
                      && r.value.totalAmount == LinesTotal(r.value.items)
  {
    var plan := ValidateOrder(db, token, req);
    if plan.Err? {
      return Err(plan.error);
    }
    var order := StoreOrder(db, plan.value, req, now);
    r := Ok(order);
  }

  /** The writes of `POST /api/orders` once its checks have passed. */
  method StoreOrder(db: MemoryDatabase, plan: OrderPlan, req: OrderRequest, now: int)
    returns (o: Order)
    requires db.OrdersValid() && db.NotificationsValid()
    modifies db`orders, db`nextOrderId, db`notifications, db`nextNotificationId
    ensures db.OrdersValid() && db.NotificationsValid()
    ensures && o == NewOrder(old(db.nextOrderId), now, OrderDraftFor(plan, req))
            && db.orders == old(db.orders) + [o]
            && db.nextOrderId == old(db.nextOrderId) + 1
            && Notified(old(db.notifications), old(db.nextNotificationId), db.notifications,
                        db.nextNotificationId, NewOrderNotice(o), now)
  {
    o := db.CreateOrder(OrderDraftFor(plan, req), now);
    var _ := db.CreateNotification(NewOrderNotice(o), now);
  }

  /** The handler's checks as it runs them, the items priced by the loop of
      `ProcessItems`: they agree with `CheckOrder`. */
  method ValidateOrder(db: MemoryDatabase, token: Token, req: OrderRequest)
    returns (r: Response<OrderPlan>)
    requires db.UsersValid()
    ensures r == CheckOrder(db, token, req)
  {
    var auth := Authorize(db, token, PharmacyRoles);
    if auth.Err? {
      return Err(auth.error);
    }
    var caller := auth.value;
    if req.items.None? || |req.items.value| == 0 {
      return Fail(400, NoItems);
    }
    var distributor := db.GetUserById(req.distributorId);
    if distributor.None? || distributor.value.role != "distributor" {
      return Fail(400, InvalidDistributor);
    }
    if db.IsExceedingCreditLimit(caller.id) {
      return Fail(400, CreditExceeded);
    }
    var lines, total := ProcessItems(db.products, req.items.value);
    if lines.Err? {
      return Fail(400, ItemMessage(lines.error));
    }
    r := Ok(OrderPlan(caller, db.GetUserById(caller.id).value.businessName,
                      distributor.value, lines.value));
  }

  // ----- GET /api/orders, GET /api/orders/:id -----------------------------------------------

  function OrderStatus(o: Order): string { o.status }

  /** `GET /api/orders?status=`: exactly the orders the caller's role lists, narrowed to
      `status` when one is given (`""` stands for none). */
  function ListOrders(db: MemoryDatabase, token: Token, status: string): (r: Response<seq<Order>>)
    reads db
    ensures VerifyToken(db, token).Err? ==> r == Err(VerifyToken(db, token).error)
    ensures r.Ok? <==> VerifyToken(db, token).Ok?
    ensures r.Ok? ==> forall i :: 0 <= i < |r.value| ==>
              && r.value[i] in db.orders
              && Lists(VerifyToken(db, token).value, r.value[i].pharmacyId, r.value[i].distributorId)
              && (status != "" ==> r.value[i].status == status)
    ensures r.Ok? ==> forall i :: 0 <= i < |db.orders| ==>
              Lists(VerifyToken(db, token).value, db.orders[i].pharmacyId, db.orders[i].distributorId)
              && (status == "" || db.orders[i].status == status)
              ==> db.orders[i] in r.value
  {
    match VerifyToken(db, token)
    case Err(e) => Err(e)
    case Ok(p) => Ok(WithStatus(OrdersListedFor(db, p), OrderStatus, status))
  }

  /** The role filter of `GET /api/orders`: a pharmacy's orders through
      `getOrdersByPharmacy`, a distributor's through `getOrdersByDistributor`, every order
      for an admin, none for any other role. */
  function OrdersListedFor(db: MemoryDatabase, p: Principal): (r: seq<Order>)
    reads db`orders
    ensures forall i :: 0 <= i < |r| ==>
              r[i] in db.orders && Lists(p, r[i].pharmacyId, r[i].distributorId)
    ensures forall i :: 0 <= i < |db.orders| ==>
              Lists(p, db.orders[i].pharmacyId, db.orders[i].distributorId) ==> db.orders[i] in r
  {
    if p.role == "pharmacy" then db.GetOrdersByPharmacy(p.id)
    else if p.role == "distributor" then db.GetOrdersByDistributor(p.id)
    else if p.role == "admin" then db.orders
    else []
  }

  /** `GET /api/orders/:id`: 404 for an unknown id, 403 for an order of another pharmacy or
      distributor. */
  function ShowOrder(db: MemoryDatabase, token: Token, id: int): (r: Response<Order>)
    reads db
    ensures VerifyToken(db, token).Err? ==> r == Err(VerifyToken(db, token).error)
    ensures VerifyToken(db, token).Ok? && db.GetOrderById(id).None? ==> r == Fail(404, OrderNotFound)
    ensures VerifyToken(db, token).Ok? && db.GetOrderById(id).Some?
            && !MayView(VerifyToken(db, token).value, db.GetOrderById(id).value.pharmacyId,
                        db.GetOrderById(id).value.distributorId)
            ==> r == Fail(403, OrderHidden)
    ensures r.Ok? <==> VerifyToken(db, token).Ok? && db.GetOrderById(id).Some?
                       && MayView(VerifyToken(db, token).value, db.GetOrderById(id).value.pharmacyId,
                                  db.GetOrderById(id).value.distributorId)
    ensures r.Ok? ==> r.value in db.orders && r.value.id == id
                      && MayView(VerifyToken(db, token).value, r.value.pharmacyId, r.value.distributorId)
  {
    match VerifyToken(db, token)
    case Err(e) => Err(e)
    case Ok(p) =>
      match db.GetOrderById(id)
      case None => Fail(404, OrderNotFound)
      case Some(o) =>
        if p.role == "pharmacy" && o.pharmacyId != p.id then Fail(403, OrderHidden)
        else if p.role == "distributor" && o.distributorId != p.id then
          Fail(403, OrderHidden)
        else Ok(o)
  }

  /** Whatever a caller's list shows, the caller may also open, since order ids are unique. */
  lemma ListedOrdersViewable(db: MemoryDatabase, token: Token, status: string, i: int)
    requires db.OrdersValid()
    requires ListOrders(db, token, status).Ok? && 0 <= i < |ListOrders(db, token, status).value|
    ensures ShowOrder(db, token, ListOrders(db, token, status).value[i].id)
            == Ok(ListOrders(db, token, status).value[i])
  {
    var o := ListOrders(db, token, status).value[i];
    assert o in db.orders;
    var j :| 0 <= j < |db.orders| && db.orders[j] == o;
    var k := IndexOf(db.orders, OrderKey, o.id);
    NumberedUnique(db.orders, OrderKey, db.nextOrderId, j, k);
  }

  // ----- PUT /api/orders/:id/status --------------------------------------------------------

  /** The checks of the status update, in their order: token and distributor gate, a known
      status, an existing order, and an order addressed to the caller (admins included). */
  function CheckOrderStatus(db: MemoryDatabase, token: Token, id: int, status: string)
    : (r: Response<Order>)
    reads db
    ensures Authorize(db, token, DistributorRoles).Err? ==> r == Err(Authorize(db, token, DistributorRoles).error)
    ensures Authorize(db, token, DistributorRoles).Ok? && status !in OrderStatuses
            ==> r == Fail(400, InvalidStatus)
    ensures Authorize(db, token, DistributorRoles).Ok? && status in OrderStatuses
            && db.GetOrderById(id).None?
            ==> r == Fail(404, OrderNotFound)
    ensures Authorize(db, token, DistributorRoles).Ok? && status in OrderStatuses
            && db.GetOrderById(id).Some? && db.GetOrderById(id).value.distributorId != token.id
            ==> r == Fail(403, NotOrderParty)
    ensures r.Ok? <==> && Authorize(db, token, DistributorRoles).Ok? && status in OrderStatuses
                       && db.GetOrderById(id).Some?
                       && db.GetOrderById(id).value.distributorId == token.id
    ensures r.Ok? ==> r.value in db.orders && r.value.id == id
  {
    match Authorize(db, token, DistributorRoles)
    case Err(e) => Err(e)
    case Ok(p) =>
      if status !in OrderStatuses then Fail(400, InvalidStatus)
      else
        match db.GetOrderById(id)
        case None => Fail(404, OrderNotFound)
        case Some(o) =>
          if o.distributorId != p.id then Fail(403, NotOrderParty)
          else Ok(o)
  }

  function OrderStatusNotice(o: Order, status: string): NotificationDraft {
    NotificationDraft(None, None, o.pharmacyId, "Order Status Updated",
                      "Your order #" + IntToString(o.id) + " has been updated to: " + status,
                      "order_status_update",
                      Some(map["orderId" := Num(o.id), "status" := Str(status)]))
  }

  /** `PUT /api/orders/:id/status`: any listed status may replace any other; only the order
      changes, and its pharmacy is notified. */
  method PutOrderStatus(db: MemoryDatabase, token: Token, id: int, status: string, now: int)
    returns (r: Response<Order>)
    requires db.OrdersValid() && db.NotificationsValid()
    modifies db`orders, db`notifications, db`nextNotificationId
    ensures db.OrdersValid() && db.NotificationsValid()
    ensures old(CheckOrderStatus(db, token, id, status)).Err?
            ==> r == Err(old(CheckOrderStatus(db, token, id, status)).error) && unchanged(db)
    ensures r.Ok? <==> old(CheckOrderStatus(db, token, id, status)).Ok?
    ensures r.Ok? ==>
              var o := old(CheckOrderStatus(db, token, id, status)).value;
              var k := IndexOf(old(db.orders), OrderKey, id);
              && r.value == o.(status := status, updatedAt := Some(now))
              && 0 <= k && db.orders == old(db.orders)[k := r.value]
              && Notified(old(db.notifications), old(db.nextNotificationId), db.notifications,
                          db.nextNotificationId, OrderStatusNotice(o, status), now)
  {
    var c := CheckOrderStatus(db, token, id, status);
    if c.Err? {
      return Err(c.error);
    }
    var updated := db.UpdateOrderStatus(id, status, now);
    var _ := db.CreateNotification(OrderStatusNotice(c.value, status), now);
    r := Ok(updated.value);
  }
}

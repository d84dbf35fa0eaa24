/** The delivery routes of `backend/routes/delivery.js`: a distributor schedules a delivery
    for one of its orders, callers list and open deliveries by role, and the pharmacy
    confirms receipt.

    The handlers read the deliveries table as `memoryDb.deliveries`, but the module of the
    store exports only bound methods, so as written those reads throw (a 500 from the list
    and show routes, no answer at all from the confirm route, whose throw happens inside the
    upload callback). The model performs the lookup the handlers evidently intend, on the
    store's own table. */
module DeliveryRoutes {
  import opened Wrappers
  import opened Seqs
  import opened Text
  import opened Entities
  import opened Roles
  import opened MemoryDb
  import opened Access

  // ----- Error messages --------------------------------------------------------------------

  const DeliveryFieldsMissing := "Order ID and delivery type are required"
  const InvalidDeliveryType := "Invalid delivery type. Must be pickup, scheduled, or third-party"
  const OrderNotFound := "Order not found"
  const NotOrderDistributor := "Not authorized to create delivery for this order"
  const NotDeliverable := "Order must be accepted, processing, or shipped to create delivery"
  const DeliveryNotFound := "Delivery not found"
  const DeliveryHidden := "Not authorized to view this delivery"
  const UploadError := "Error uploading file"
  const InvalidConfirmationType := "Valid confirmation type is required (signature, image, or otp)"
  const OtpMissing := "OTP code is required for OTP confirmation"
  const NotDeliveryPharmacy := "Not authorized to confirm this delivery"

  const DeliveryTypes: seq<string> := ["pickup", "scheduled", "third-party"]
  const ConfirmationTypes: seq<string> := ["signature", "image", "otp"]

  /** The body of `POST /api/delivery`; 0 and `""` stand for a missing `orderId` and
      `deliveryType`. */
  datatype DeliveryRequest = DeliveryRequest(orderId: int, deliveryType: string,
                                             scheduledDate: Option<int>, notes: Option<string>)

  /** The order a delivery may be scheduled for: one that has been accepted and not yet
      delivered, rejected or cancelled. */
  predicate Deliverable(o: Order) {
    o.status == "accepted" || o.status == "processing" || o.status == "shipped"
  }

  // ----- POST /api/delivery ----------------------------------------------------------------

  /** What the checks of a new delivery establish: the caller, its business name and the
      order the delivery is for. */
  datatype DeliveryPlan = DeliveryPlan(caller: Principal, distributorName: string, order: Order)

  /** The checks of `POST /api/delivery`, in their order. */
  function CheckDelivery(db: MemoryDatabase, token: Token, req: DeliveryRequest)
    : (r: Response<DeliveryPlan>)
    reads db
    ensures Authorize(db, token, DistributorRoles).Err?
            ==> r == Err(Authorize(db, token, DistributorRoles).error)
    ensures Authorize(db, token, DistributorRoles).Ok? && (req.orderId == 0 || req.deliveryType == "")
            ==> r == Fail(400, DeliveryFieldsMissing)
    ensures Authorize(db, token, DistributorRoles).Ok? && req.orderId != 0 && req.deliveryType != ""
            && req.deliveryType !in DeliveryTypes
            ==> r == Fail(400, InvalidDeliveryType)
    ensures Authorize(db, token, DistributorRoles).Ok? && req.orderId != 0
            && req.deliveryType in DeliveryTypes && db.GetOrderById(req.orderId).None?
            ==> r == Fail(404, OrderNotFound)
    ensures Authorize(db, token, DistributorRoles).Ok? && req.orderId != 0
            && req.deliveryType in DeliveryTypes && db.GetOrderById(req.orderId).Some?
            && db.GetOrderById(req.orderId).value.distributorId != token.id
            ==> r == Fail(403, NotOrderDistributor)
    ensures Authorize(db, token, DistributorRoles).Ok? && req.orderId != 0
            && req.deliveryType in DeliveryTypes && db.GetOrderById(req.orderId).Some?
            && db.GetOrderById(req.orderId).value.distributorId == token.id
            && !Deliverable(db.GetOrderById(req.orderId).value)
            ==> r == Fail(400, NotDeliverable)
    ensures r.Ok? <==> && Authorize(db, token, DistributorRoles).Ok? && req.orderId != 0
                       && req.deliveryType in DeliveryTypes
                       && db.GetOrderById(req.orderId).Some?
                       && db.GetOrderById(req.orderId).value.distributorId == token.id
                       && Deliverable(db.GetOrderById(req.orderId).value)
    ensures r.Ok? ==> && r.value.caller == Principal(token.id, token.role)
                      && Some(r.value.order) == db.GetOrderById(req.orderId)
                      && r.value.distributorName == db.GetUserById(token.id).value.businessName
  {
    match Authorize(db, token, DistributorRoles)
    case Err(e) => Err(e)
    case Ok(p) =>
      if req.orderId == 0 || req.deliveryType == "" then
        Fail(400, DeliveryFieldsMissing)
      else if req.deliveryType !in DeliveryTypes then
        Fail(400, InvalidDeliveryType)
      else
        match db.GetOrderById(req.orderId)
        case None => Fail(404, OrderNotFound)
        case Some(o) =>
          if o.distributorId != p.id then Fail(403, NotOrderDistributor)
          else if !Deliverable(o) then
            Fail(400, NotDeliverable)
          else Ok(DeliveryPlan(p, db.GetUserById(p.id).value.businessName, o))
  
  }

  /** The data `createDelivery` receives: a scheduled delivery between the order's
      pharmacy and the caller. */
  function DeliveryDraftFor(plan: DeliveryPlan, req: DeliveryRequest): DeliveryDraft {
    DeliveryDraft(None, Some("scheduled"), req.orderId, plan.order.pharmacyId,
                  plan.order.pharmacyName, plan.caller.id, plan.distributorName, req.deliveryType,
                  req.scheduledDate, req.notes, map[])
  }

  function NewDeliveryNotice(o: Order, v: Delivery): NotificationDraft {
    NotificationDraft(None, None, o.pharmacyId, "Delivery Scheduled",
                      "Delivery for order #" + IntToString(o.id) + " has been scheduled as "
                      + v.deliveryType,
                      "new_delivery",
                      Some(map["deliveryId" := Num(v.id), "orderId" := Num(o.id)]))
  }

  /** `POST /api/delivery`: a failed check changes nothing; otherwise one scheduled delivery
      is stored, the order becomes shipped (it is written only when it was not shipped
      already) and the pharmacy is notified. */
  method PostDelivery(db: MemoryDatabase, token: Token, req: DeliveryRequest, now: int)
    returns (r: Response<Delivery>)
    requires db.OrdersValid() && db.DeliveriesValid() && db.NotificationsValid()
    modifies db`deliveries, db`nextDeliveryId, db`orders, db`notifications, db`nextNotificationId
    ensures db.OrdersValid() && db.DeliveriesValid() && db.NotificationsValid()
    ensures old(CheckDelivery(db, token, req)).Err?
            ==> r == Err(old(CheckDelivery(db, token, req)).error) && unchanged(db)
    ensures r.Ok? <==> old(CheckDelivery(db, token, req)).Ok?
    ensures r.Ok? ==>
              var plan := old(CheckDelivery(db, token, req)).value;
              var o := plan.order;
              var k := IndexOf(old(db.orders), OrderKey, req.orderId);
              && r.value == NewDelivery(old(db.nextDeliveryId), now, DeliveryDraftFor(plan, req))
              && db.deliveries == old(db.deliveries) + [r.value]
              && db.nextDeliveryId == old(db.nextDeliveryId) + 1
              && 0 <= k
              && db.orders == (if o.status == "shipped" then old(db.orders)
                               else old(db.orders)[k := o.(status := "shipped", updatedAt := Some(now))])
              && Notified(old(db.notifications), old(db.nextNotificationId), db.notifications,
                          db.nextNotificationId, NewDeliveryNotice(o, r.value), now)
    // after a delivery is scheduled, its order is shipped
    ensures r.Ok? ==> && r.value.status == "scheduled" && r.value.distributorId == token.id
                      && db.GetOrderById(r.value.orderId).Some?
                      && db.GetOrderById(r.value.orderId).value.status == "shipped"
  {
    var c := CheckDelivery(db, token, req);
    if c.Err? {
      return Err(c.error);
    }
    var v := StoreDelivery(db, c.value, req, now);
    r := Ok(v);
  }

  /** The writes of `POST /api/delivery` once its checks have passed. */
  method StoreDelivery(db: MemoryDatabase, plan: DeliveryPlan, req: DeliveryRequest, now: int)
    returns (v: Delivery)
    requires db.OrdersValid() && db.DeliveriesValid() && db.NotificationsValid()
    requires Some(plan.order) == db.GetOrderById(req.orderId)
    modifies db`deliveries, db`nextDeliveryId, db`orders, db`notifications, db`nextNotificationId
    ensures db.OrdersValid() && db.DeliveriesValid() && db.NotificationsValid()
    ensures var o := plan.order;
            var k := IndexOf(old(db.orders), OrderKey, req.orderId);
            && v == NewDelivery(old(db.nextDeliveryId), now, DeliveryDraftFor(plan, req))
            && db.deliveries == old(db.deliveries) + [v]
            && db.nextDeliveryId == old(db.nextDeliveryId) + 1
            && 0 <= k
            && db.orders == (if o.status == "shipped" then old(db.orders)
                             else old(db.orders)[k := o.(status := "shipped", updatedAt := Some(now))])
            && Notified(old(db.notifications), old(db.nextNotificationId), db.notifications,
                        db.nextNotificationId, NewDeliveryNotice(o, v), now)
    ensures db.GetOrderById(req.orderId).Some? && db.GetOrderById(req.orderId).value.status == "shipped"
  {
    var o := plan.order;
    ghost var k := IndexOf(db.orders, OrderKey, req.orderId);
    v := db.CreateDelivery(DeliveryDraftFor(plan, req), now);
    if o.status != "shipped" {
      var _ := db.UpdateOrderStatus(req.orderId, "shipped", now);
    }
    assert db.orders[k].id == req.orderId && db.orders[k].status == "shipped";
    NumberedFirst(db.orders, req.orderId, db.nextOrderId, k);
    var _ := db.CreateNotification(NewDeliveryNotice(o, v), now);
  }

  /** In a numbered table the record at `k` is the one a lookup by its id finds. */
  lemma NumberedFirst(os: seq<Order>, id: int, next: int, k: int)
    requires Numbered(os, OrderKey, next) && 0 <= k < |os| && os[k].id == id
    ensures IndexOf(os, OrderKey, id) == k
  {
    NumberedUnique(os, OrderKey, next, k, IndexOf(os, OrderKey, id));
  }

  // ----- GET /api/delivery, GET /api/delivery/:id ------------------------------------------

  /** `memoryDb.deliveries.find(d => d.id === id)`. */
  function FindDelivery(db: MemoryDatabase, id: int): (r: Option<Delivery>)
    reads db
    ensures r.None? <==> forall i :: 0 <= i < |db.deliveries| ==> db.deliveries[i].id != id
    ensures r.Some? ==> r.value in db.deliveries && r.value.id == id
  {
    var k := IndexOf(db.deliveries, DeliveryKey, id);
    if k < 0 then None else Some(db.deliveries[k])
  }

  function DeliveryStatus(v: Delivery): string { v.status }

  /** `GET /api/delivery?status=`: exactly the deliveries the caller's role lists, narrowed
      to `status` when one is given. */
  function ListDeliveries(db: MemoryDatabase, token: Token, status: string)
    : (r: Response<seq<Delivery>>)
    reads db
    ensures VerifyToken(db, token).Err? ==> r == Err(VerifyToken(db, token).error)
    ensures r.Ok? <==> VerifyToken(db, token).Ok?
    ensures r.Ok? ==> forall i :: 0 <= i < |r.value| ==>
              && r.value[i] in db.deliveries
              && Lists(VerifyToken(db, token).value, r.value[i].pharmacyId, r.value[i].distributorId)
              && (status != "" ==> r.value[i].status == status)
    ensures r.Ok? ==> forall i :: 0 <= i < |db.deliveries| ==>
              Lists(VerifyToken(db, token).value, db.deliveries[i].pharmacyId,
                    db.deliveries[i].distributorId)
              && (status == "" || db.deliveries[i].status == status)
              ==> db.deliveries[i] in r.value
  {
    match VerifyToken(db, token)
    case Err(e) => Err(e)
    case Ok(p) => Ok(WithStatus(ListedFor(db.deliveries, p), DeliveryStatus, status))
  }

  /** The role filter of `GET /api/delivery`: a pharmacy's or a distributor's own
      deliveries, all of them for an admin, none for any other role. */
  function ListedFor(deliveries: seq<Delivery>, p: Principal): (r: seq<Delivery>)
    ensures forall i :: 0 <= i < |r| ==>
              r[i] in deliveries && Lists(p, r[i].pharmacyId, r[i].distributorId)
    ensures forall i :: 0 <= i < |deliveries| ==>
              Lists(p, deliveries[i].pharmacyId, deliveries[i].distributorId) ==> deliveries[i] in r
  {
    if p.role == "pharmacy" then Filter(deliveries, (v: Delivery) => v.pharmacyId == p.id)
    else if p.role == "distributor" then Filter(deliveries, (v: Delivery) => v.distributorId == p.id)
    else if p.role == "admin" then deliveries
    else []
  }

  /** `GET /api/delivery/:id`: 404 for an unknown id, 403 for a delivery of another
      pharmacy or distributor. */
  function ShowDelivery(db: MemoryDatabase, token: Token, id: int): (r: Response<Delivery>)
    reads db
    ensures VerifyToken(db, token).Err? ==> r == Err(VerifyToken(db, token).error)
    ensures VerifyToken(db, token).Ok? && FindDelivery(db, id).None?
            ==> r == Fail(404, DeliveryNotFound)
    ensures VerifyToken(db, token).Ok? && FindDelivery(db, id).Some?
            && !MayView(VerifyToken(db, token).value, FindDelivery(db, id).value.pharmacyId,
                        FindDelivery(db, id).value.distributorId)
            ==> r == Fail(403, DeliveryHidden)
    ensures r.Ok? <==> && VerifyToken(db, token).Ok? && FindDelivery(db, id).Some?
                       && MayView(VerifyToken(db, token).value, FindDelivery(db, id).value.pharmacyId,
                                  FindDelivery(db, id).value.distributorId)
    ensures r.Ok? ==> r.value in db.deliveries && r.value.id == id
  {
    match VerifyToken(db, token)
    case Err(e) => Err(e)
    case Ok(p) =>
      match FindDelivery(db, id)
      case None => Fail(404, DeliveryNotFound)
      case Some(v) =>
        if p.role == "pharmacy" && v.pharmacyId != p.id then
          Fail(403, DeliveryHidden)
        else if p.role == "distributor" && v.distributorId != p.id then
          Fail(403, DeliveryHidden)
        else Ok(v)
  }

  // ----- PUT /api/delivery/:id/confirm -----------------------------------------------------

  /** The form fields of the confirmation; `""` stands for a missing field. */
  datatype ConfirmRequest = ConfirmRequest(confirmationType: string, otpCode: string, notes: string)

  /** The checks of the confirmation, in their order: token and pharmacy gate, the upload,
      a known confirmation type, an OTP code for OTP confirmations, an existing delivery, and
      a delivery to the caller. On success the delivery as found. */
  function CheckConfirm(db: MemoryDatabase, token: Token, id: int, upload: Upload,
                        req: ConfirmRequest): (r: Response<Delivery>)
    reads db
    ensures Authorize(db, token, PharmacyRoles).Err?
            ==> r == Err(Authorize(db, token, PharmacyRoles).error)
    ensures Authorize(db, token, PharmacyRoles).Ok? && upload.Failed?
            ==> r == Fail(400, UploadError)
    ensures Authorize(db, token, PharmacyRoles).Ok? && !upload.Failed?
            && req.confirmationType !in ConfirmationTypes
            ==> r == Fail(400, InvalidConfirmationType)
    ensures Authorize(db, token, PharmacyRoles).Ok? && !upload.Failed?
            && req.confirmationType == "otp" && req.otpCode == ""
            ==> r == Fail(400, OtpMissing)
    ensures Authorize(db, token, PharmacyRoles).Ok? && !upload.Failed?
            && req.confirmationType in ConfirmationTypes
            && !(req.confirmationType == "otp" && req.otpCode == "")
            && FindDelivery(db, id).None?
            ==> r == Fail(404, DeliveryNotFound)
    ensures Authorize(db, token, PharmacyRoles).Ok? && !upload.Failed?
            && req.confirmationType in ConfirmationTypes
            && !(req.confirmationType == "otp" && req.otpCode == "")
            && FindDelivery(db, id).Some? && FindDelivery(db, id).value.pharmacyId != token.id
            ==> r == Fail(403, NotDeliveryPharmacy)
    ensures r.Ok? <==> && Authorize(db, token, PharmacyRoles).Ok? && !upload.Failed?
                       && req.confirmationType in ConfirmationTypes
                       && !(req.confirmationType == "otp" && req.otpCode == "")
                       && FindDelivery(db, id).Some?
                       && FindDelivery(db, id).value.pharmacyId == token.id
    ensures r.Ok? ==> Some(r.value) == FindDelivery(db, id)
  {
    match Authorize(db, token, PharmacyRoles)
    case Err(e) => Err(e)
    case Ok(p) =>
      if upload.Failed? then Fail(400, UploadError)
      else if req.confirmationType !in ConfirmationTypes then
        Fail(400, InvalidConfirmationType)
      else if req.confirmationType == "otp" && req.otpCode == "" then
        Fail(400, OtpMissing)
      else
        match FindDelivery(db, id)
        case None => Fail(404, DeliveryNotFound)
        case Some(v) =>
          if v.pharmacyId != p.id then Fail(403, NotDeliveryPharmacy)
          else Ok(v)
  }

  /** The confirmation details merged into the delivery. */
  function ConfirmationData(req: ConfirmRequest, upload: Upload, now: int): (f: Fields)
    ensures f.Keys == {"type", "timestamp", "notes", "imagePath", "otpCode"}
    ensures f["type"] == Str(req.confirmationType) && f["timestamp"] == Num(now)
    ensures f["notes"] == Str(req.notes)
    ensures f["imagePath"] == (if upload.File? then Str(upload.path) else Null)
    ensures f["otpCode"] == (if req.otpCode == "" then Null else Str(req.otpCode))
  {
    map["type" := Str(req.confirmationType), "timestamp" := Num(now), "notes" := Str(req.notes),
        "imagePath" := (if upload.File? then Str(upload.path) else Null),
        "otpCode" := (if req.otpCode == "" then Null else Str(req.otpCode))]
  }

  function ConfirmedNotice(v: Delivery): NotificationDraft {
    NotificationDraft(None, None, v.distributorId, "Delivery Confirmed",
                      "Delivery for order #" + IntToString(v.orderId) + " has been confirmed by "
                      + v.pharmacyName,
                      "delivery_confirmed",
                      Some(map["deliveryId" := Num(v.id), "orderId" := Num(v.orderId)]))
  }

  /** `PUT /api/delivery/:id/confirm`: the delivery becomes delivered with the confirmation
      details merged in, its order (when it exists) becomes delivered, and the distributor
      is notified. */
  method ConfirmDelivery(db: MemoryDatabase, token: Token, id: int, upload: Upload,
                         req: ConfirmRequest, now: int) returns (r: Response<Delivery>)
    requires db.OrdersValid() && db.DeliveriesValid() && db.NotificationsValid()
    modifies db`deliveries, db`orders, db`notifications, db`nextNotificationId
    ensures db.OrdersValid() && db.DeliveriesValid() && db.NotificationsValid()
    ensures old(CheckConfirm(db, token, id, upload, req)).Err?
            ==> r == Err(old(CheckConfirm(db, token, id, upload, req)).error) && unchanged(db)
    ensures r.Ok? <==> old(CheckConfirm(db, token, id, upload, req)).Ok?
    ensures r.Ok? ==>
              var v := old(CheckConfirm(db, token, id, upload, req)).value;
              var k := IndexOf(old(db.deliveries), DeliveryKey, id);
              var j := IndexOf(old(db.orders), OrderKey, v.orderId);
              && r.value == v.(status := "delivered", updatedAt := Some(now),
                               confirmation := v.confirmation + ConfirmationData(req, upload, now))
              && 0 <= k && db.deliveries == old(db.deliveries)[k := r.value]
              && db.orders == (if j < 0 then old(db.orders)
                               else old(db.orders)[j := old(db.orders)[j].(status := "delivered",
                                                                           updatedAt := Some(now))])
              && Notified(old(db.notifications), old(db.nextNotificationId), db.notifications,
                          db.nextNotificationId, ConfirmedNotice(v), now)
  {
    var c := CheckConfirm(db, token, id, upload, req);
    if c.Err? {
      return Err(c.error);
    }
    r := StoreConfirmation(db, c.value, upload, req, now);
  }

  /** The writes of the confirmation once its checks have passed. */
  method StoreConfirmation(db: MemoryDatabase, v: Delivery, upload: Upload, req: ConfirmRequest,
                           now: int) returns (r: Response<Delivery>)
    requires db.OrdersValid() && db.DeliveriesValid() && db.NotificationsValid()
    requires Some(v) == FindDelivery(db, v.id)
    modifies db`deliveries, db`orders, db`notifications, db`nextNotificationId
    ensures db.OrdersValid() && db.DeliveriesValid() && db.NotificationsValid()
    ensures var k := IndexOf(old(db.deliveries), DeliveryKey, v.id);
            var j := IndexOf(old(db.orders), OrderKey, v.orderId);
            && r == Ok(v.(status := "delivered", updatedAt := Some(now),
                          confirmation := v.confirmation + ConfirmationData(req, upload, now)))
            && 0 <= k && db.deliveries == old(db.deliveries)[k := r.value]
            && db.orders == (if j < 0 then old(db.orders)
                             else old(db.orders)[j := old(db.orders)[j].(status := "delivered",
                                                                         updatedAt := Some(now))])
            && Notified(old(db.notifications), old(db.nextNotificationId), db.notifications,
                        db.nextNotificationId, ConfirmedNotice(v), now)
  {
    var updated := db.UpdateDeliveryStatus(v.id, "delivered", ConfirmationData(req, upload, now), now);
    var _ := db.UpdateOrderStatus(v.orderId, "delivered", now);
    var _ := db.CreateNotification(ConfirmedNotice(v), now);
    r := Ok(updated.value);
  }
}

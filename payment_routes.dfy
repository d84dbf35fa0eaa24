/** The payment routes of `backend/routes/payments.js`: a pharmacy records a payment (a
    cheque image) to a distributor, callers list and open payments by role, and the
    distributor moves a payment through its statuses.

    The distributor's list reads `memoryDb.payments`, which the store's module does not
    export, so as written that read throws and the list answers 500; the model filters the
    store's own table, as the handler evidently intends. */
module PaymentRoutes {
  import opened Wrappers
  import opened Seqs
  import opened Text
  import opened Entities
  import opened Roles
  import opened MemoryDb
  import opened Access

  // ----- Error messages --------------------------------------------------------------------

  const UploadError := "Error uploading file"
  const PaymentFieldsMissing := "Amount and distributor ID are required"
  const InvalidDistributor := "Invalid distributor"
  const PaymentNotFound := "Payment not found"
  const PaymentHidden := "Not authorized to view this payment"
  const InvalidStatus := "Invalid status"
  const NotPaymentDistributor := "Not authorized to update this payment"

  const PaymentStatuses: seq<string> := ["pending", "processed", "cleared", "rejected", "bounced"]

  /** The form fields of `POST /api/payments`: `amountText` is the amount as sent (`""` when
      missing) and `amount` its value in fils; `distributorId` is 0 when missing. */
  datatype PaymentRequest = PaymentRequest(amountText: string, amount: int, distributorId: int,
                                           dueDate: Option<int>, notes: Option<string>,
                                           orderId: Option<int>)

  // ----- POST /api/payments ----------------------------------------------------------------

  /** What the checks of a new payment establish. */
  datatype PaymentPlan = PaymentPlan(caller: Principal, pharmacyName: string, distributor: PublicUser)

  /** The checks of `POST /api/payments`, in their order: token and pharmacy gate, the
      upload, an amount and a distributor id, and a real distributor. */
  function CheckPayment(db: MemoryDatabase, token: Token, upload: Upload, req: PaymentRequest)
    : (r: Response<PaymentPlan>)
    reads db
    ensures Authorize(db, token, PharmacyRoles).Err?
            ==> r == Err(Authorize(db, token, PharmacyRoles).error)
    ensures Authorize(db, token, PharmacyRoles).Ok? && upload.Failed?
            ==> r == Fail(400, UploadError)
    ensures Authorize(db, token, PharmacyRoles).Ok? && !upload.Failed?
            && (req.amountText == "" || req.distributorId == 0)
            ==> r == Fail(400, PaymentFieldsMissing)
    ensures Authorize(db, token, PharmacyRoles).Ok? && !upload.Failed?
            && req.amountText != "" && req.distributorId != 0
            && (db.GetUserById(req.distributorId).None?
                || db.GetUserById(req.distributorId).value.role != "distributor")
            ==> r == Fail(400, InvalidDistributor)
    ensures r.Ok? <==> && Authorize(db, token, PharmacyRoles).Ok? && !upload.Failed?
                       && req.amountText != "" && req.distributorId != 0
                       && db.GetUserById(req.distributorId).Some?
                       && db.GetUserById(req.distributorId).value.role == "distributor"
    ensures r.Ok? ==> && r.value.caller == Principal(token.id, token.role)
                      && Some(r.value.distributor) == db.GetUserById(req.distributorId)
                      && r.value.pharmacyName == db.GetUserById(token.id).value.businessName
  {
    match Authorize(db, token, PharmacyRoles)
    case Err(e) => Err(e)
    case Ok(p) =>
      if upload.Failed? then Fail(400, UploadError)
      else if req.amountText == "" || req.distributorId == 0 then
        Fail(400, PaymentFieldsMissing)
      else
        var d := db.GetUserById(req.distributorId);
        if d.None? || d.value.role != "distributor" then Fail(400, InvalidDistributor)
        else Ok(PaymentPlan(p, db.GetUserById(p.id).value.businessName, d.value))
  }

  /** The data `createPayment` receives: a pending payment from the caller. */
  function PaymentDraftFor(plan: PaymentPlan, upload: Upload, req: PaymentRequest): PaymentDraft {
    PaymentDraft(None, Some("pending"), plan.caller.id, plan.pharmacyName, req.distributorId,
                 plan.distributor.businessName, req.orderId, req.amount,
                 if upload.File? then Some(upload.path) else None, req.dueDate, req.notes)
  }

  function NewPaymentNotice(p: Payment, amountText: string): NotificationDraft {
    NotificationDraft(None, None, p.distributorId, "New Payment Received",
                      "New payment of " + amountText + " JD received from " + p.pharmacyName,
                      "new_payment", Some(map["paymentId" := Num(p.id)]))
  }

  /** `POST /api/payments`: a failed check changes nothing; otherwise one pending payment
      is stored and the distributor is notified. */
  method PostPayment(db: MemoryDatabase, token: Token, upload: Upload, req: PaymentRequest, now: int)
    returns (r: Response<Payment>)
    requires db.PaymentsValid() && db.NotificationsValid()
    modifies db`payments, db`nextPaymentId, db`notifications, db`nextNotificationId
    ensures db.PaymentsValid() && db.NotificationsValid()
    ensures old(CheckPayment(db, token, upload, req)).Err?
            ==> r == Err(old(CheckPayment(db, token, upload, req)).error) && unchanged(db)
    ensures r.Ok? <==> old(CheckPayment(db, token, upload, req)).Ok?
    ensures r.Ok? ==>
              && r.value == NewPayment(old(db.nextPaymentId), now,
                                       PaymentDraftFor(old(CheckPayment(db, token, upload, req)).value,
                                                       upload, req))
              && db.payments == old(db.payments) + [r.value]
              && db.nextPaymentId == old(db.nextPaymentId) + 1
              && Notified(old(db.notifications), old(db.nextNotificationId), db.notifications,
                          db.nextNotificationId, NewPaymentNotice(r.value, req.amountText), now)
    // the new payment counts against the caller's credit, and against no one else's
    ensures r.Ok? ==> forall pid ::
              PendingTotal(db.payments, pid)
              == old(PendingTotal(db.payments, pid)) + (if pid == token.id then req.amount else 0)
  {
    var c := CheckPayment(db, token, upload, req);
    if c.Err? {
      return Err(c.error);
    }
    var p := StorePayment(db, PaymentDraftFor(c.value, upload, req), req.amountText, now);
    r := Ok(p);
  }

  /** The writes of `POST /api/payments` once its checks have passed. */
  method StorePayment(db: MemoryDatabase, d: PaymentDraft, amountText: string, now: int)
    returns (p: Payment)
    requires db.PaymentsValid() && db.NotificationsValid()
    modifies db`payments, db`nextPaymentId, db`notifications, db`nextNotificationId
    ensures db.PaymentsValid() && db.NotificationsValid()
    ensures && p == NewPayment(old(db.nextPaymentId), now, d)
            && db.payments == old(db.payments) + [p]
            && db.nextPaymentId == old(db.nextPaymentId) + 1
            && Notified(old(db.notifications), old(db.nextNotificationId), db.notifications,
                        db.nextNotificationId, NewPaymentNotice(p, amountText), now)
    ensures forall pid ::
              PendingTotal(db.payments, pid) == old(PendingTotal(db.payments, pid)) + PendingAmount(p, pid)
  {
    ghost var before := db.payments;
    p := db.CreatePayment(d, now);
    forall pid ensures PendingTotal(db.payments, pid) == PendingTotal(before, pid) + PendingAmount(p, pid) {
      PendingTotalAppend(before, pid, p);
    }
    var _ := db.CreateNotification(NewPaymentNotice(p, amountText), now);
  }

  // ----- GET /api/payments, GET /api/payments/:id ------------------------------------------

  function PaymentStatus(p: Payment): string { p.status }

  /** `GET /api/payments?status=`: exactly the payments the caller's role lists, narrowed to
      `status` when one is given. */
  function ListPayments(db: MemoryDatabase, token: Token, status: string): (r: Response<seq<Payment>>)
    reads db
    ensures VerifyToken(db, token).Err? ==> r == Err(VerifyToken(db, token).error)
    ensures r.Ok? <==> VerifyToken(db, token).Ok?
    ensures r.Ok? ==> forall i :: 0 <= i < |r.value| ==>
              && r.value[i] in db.payments
              && Lists(VerifyToken(db, token).value, r.value[i].pharmacyId, r.value[i].distributorId)
              && (status != "" ==> r.value[i].status == status)
    ensures r.Ok? ==> forall i :: 0 <= i < |db.payments| ==>
              Lists(VerifyToken(db, token).value, db.payments[i].pharmacyId,
                    db.payments[i].distributorId)
              && (status == "" || db.payments[i].status == status)
              ==> db.payments[i] in r.value
  {
    match VerifyToken(db, token)
    case Err(e) => Err(e)
    case Ok(u) => Ok(WithStatus(PaymentsListedFor(db, u), PaymentStatus, status))
  }

  /** The role filter of `GET /api/payments`: a pharmacy's payments through
      `getPaymentsByPharmacy`, a distributor's by filtering the table, every payment for an
      admin, none for any other role. */
  function PaymentsListedFor(db: MemoryDatabase, u: Principal): (r: seq<Payment>)
    reads db`payments
    ensures forall i :: 0 <= i < |r| ==>
              r[i] in db.payments && Lists(u, r[i].pharmacyId, r[i].distributorId)
    ensures forall i :: 0 <= i < |db.payments| ==>
              Lists(u, db.payments[i].pharmacyId, db.payments[i].distributorId) ==> db.payments[i] in r
  {
    if u.role == "pharmacy" then db.GetPaymentsByPharmacy(u.id)
    else if u.role == "distributor" then Filter(db.payments, (p: Payment) => p.distributorId == u.id)
    else if u.role == "admin" then db.payments
    else []
  }

  /** `GET /api/payments/:id`: 404 for an unknown id, 403 for a payment of another pharmacy
      or distributor. */
  function ShowPayment(db: MemoryDatabase, token: Token, id: int): (r: Response<Payment>)
    reads db
    ensures VerifyToken(db, token).Err? ==> r == Err(VerifyToken(db, token).error)
    ensures VerifyToken(db, token).Ok? && db.GetPaymentById(id).None?
            ==> r == Fail(404, PaymentNotFound)
    ensures VerifyToken(db, token).Ok? && db.GetPaymentById(id).Some?
            && !MayView(VerifyToken(db, token).value, db.GetPaymentById(id).value.pharmacyId,
                        db.GetPaymentById(id).value.distributorId)
            ==> r == Fail(403, PaymentHidden)
    ensures r.Ok? <==> && VerifyToken(db, token).Ok? && db.GetPaymentById(id).Some?
                       && MayView(VerifyToken(db, token).value, db.GetPaymentById(id).value.pharmacyId,
                                  db.GetPaymentById(id).value.distributorId)
    ensures r.Ok? ==> r.value in db.payments && r.value.id == id
  {
    match VerifyToken(db, token)
    case Err(e) => Err(e)
    case Ok(u) =>
      match db.GetPaymentById(id)
      case None => Fail(404, PaymentNotFound)
      case Some(p) =>
        if u.role == "pharmacy" && p.pharmacyId != u.id then
          Fail(403, PaymentHidden)
        else if u.role == "distributor" && p.distributorId != u.id then
          Fail(403, PaymentHidden)
        else Ok(p)
  }

  // ----- PUT /api/payments/:id/status ------------------------------------------------------

  /** The checks of the status update, in their order: token and distributor gate, a known
      status, an existing payment, and a payment to the caller. */
  function CheckPaymentStatus(db: MemoryDatabase, token: Token, id: int, status: string)
    : (r: Response<Payment>)
    reads db
    ensures Authorize(db, token, DistributorRoles).Err?
            ==> r == Err(Authorize(db, token, DistributorRoles).error)
    ensures Authorize(db, token, DistributorRoles).Ok? && status !in PaymentStatuses
            ==> r == Fail(400, InvalidStatus)
    ensures Authorize(db, token, DistributorRoles).Ok? && status in PaymentStatuses
            && db.GetPaymentById(id).None?
            ==> r == Fail(404, PaymentNotFound)
    ensures Authorize(db, token, DistributorRoles).Ok? && status in PaymentStatuses
            && db.GetPaymentById(id).Some? && db.GetPaymentById(id).value.distributorId != token.id
            ==> r == Fail(403, NotPaymentDistributor)
    ensures r.Ok? <==> && Authorize(db, token, DistributorRoles).Ok? && status in PaymentStatuses
                       && db.GetPaymentById(id).Some?
                       && db.GetPaymentById(id).value.distributorId == token.id
    ensures r.Ok? ==> Some(r.value) == db.GetPaymentById(id)
  {
    match Authorize(db, token, DistributorRoles)
    case Err(e) => Err(e)
    case Ok(u) =>
      if status !in PaymentStatuses then Fail(400, InvalidStatus)
      else
        match db.GetPaymentById(id)
        case None => Fail(404, PaymentNotFound)
        case Some(p) =>
          if p.distributorId != u.id then Fail(403, NotPaymentDistributor)
          else Ok(p)
  }

  function PaymentStatusNotice(p: Payment, status: string): NotificationDraft {
    NotificationDraft(None, None, p.pharmacyId, "Payment Status Updated",
                      "Your payment of " + FormatAmount(p.amount) + " JD has been updated to: "
                      + status,
                      "payment_status_update",
                      Some(map["paymentId" := Num(p.id), "status" := Str(status)]))
  }

  /** `PUT /api/payments/:id/status`: only the payment changes, and its pharmacy is
      notified. Clearing a pending payment frees its amount of the pharmacy's credit, and
      setting one back to pending takes it again. */
  method PutPaymentStatus(db: MemoryDatabase, token: Token, id: int, status: string, now: int)
    returns (r: Response<Payment>)
    requires db.PaymentsValid() && db.NotificationsValid()
    modifies db`payments, db`notifications, db`nextNotificationId
    ensures db.PaymentsValid() && db.NotificationsValid()
    ensures old(CheckPaymentStatus(db, token, id, status)).Err?
            ==> r == Err(old(CheckPaymentStatus(db, token, id, status)).error) && unchanged(db)
    ensures r.Ok? <==> old(CheckPaymentStatus(db, token, id, status)).Ok?
    ensures r.Ok? ==>
              var p := old(CheckPaymentStatus(db, token, id, status)).value;
              var k := IndexOf(old(db.payments), PaymentKey, id);
              && r.value == p.(status := status, updatedAt := Some(now))
              && 0 <= k && db.payments == old(db.payments)[k := r.value]
              && Notified(old(db.notifications), old(db.nextNotificationId), db.notifications,
                          db.nextNotificationId, PaymentStatusNotice(p, status), now)
              && PendingTotal(db.payments, p.pharmacyId)
                 == old(PendingTotal(db.payments, p.pharmacyId))
                    - (if p.status == "pending" then p.amount else 0)
                    + (if status == "pending" then p.amount else 0)
  {
    var c := CheckPaymentStatus(db, token, id, status);
    if c.Err? {
      return Err(c.error);
    }
    r := StorePaymentStatus(db, c.value, status, now);
  }

  /** The writes of the status update once its checks have passed. */
  method StorePaymentStatus(db: MemoryDatabase, p: Payment, status: string, now: int)
    returns (r: Response<Payment>)
    requires db.PaymentsValid() && db.NotificationsValid()
    requires Some(p) == db.GetPaymentById(p.id)
    modifies db`payments, db`notifications, db`nextNotificationId
    ensures db.PaymentsValid() && db.NotificationsValid()
    ensures var k := IndexOf(old(db.payments), PaymentKey, p.id);
            && r == Ok(p.(status := status, updatedAt := Some(now)))
            && 0 <= k && db.payments == old(db.payments)[k := r.value]
            && Notified(old(db.notifications), old(db.nextNotificationId), db.notifications,
                        db.nextNotificationId, PaymentStatusNotice(p, status), now)
            && PendingTotal(db.payments, p.pharmacyId)
               == old(PendingTotal(db.payments, p.pharmacyId))
                  - (if p.status == "pending" then p.amount else 0)
                  + (if status == "pending" then p.amount else 0)
  {
    ghost var before := db.payments;
    ghost var k := IndexOf(before, PaymentKey, p.id);
    var updated := db.UpdatePaymentStatus(p.id, status, now);
    PendingTotalUpdate(before, p.pharmacyId, k, updated.value);
    var _ := db.CreateNotification(PaymentStatusNotice(p, status), now);
    r := Ok(updated.value);
  }
}
